/** The heading renumbering script for the specification documents. Each
    bold heading `#`, `##` or `###` of a file is rewritten to carry a number
    `P-1`, `P-1.n` or `P-1.n.m` (P the file's two-letter prefix) and an
    anchor with the same number; counters for the three levels are carried
    from line to line. */
module Numbering {
  import opened Base
  import opened Text

  /** Each document and the prefix of its numbers. */
  const FilePrefixMap: map<string, string> := map[
    "01_daily_checkin.md" := "DC",
    "02_micro_task_planner.md" := "MT",
    "03_achievement_log_feedback.md" := "AF",
    "04_reflection_feature.md" := "RF",
    "05_reminder_feature.md" := "RM",
    "06_architecture_overview.md" := "AR",
    "07_development_considerations.md" := "DV",
    "08_future_extensions.md" := "FE",
    "09_glossary.md" := "GL",
    "10_implementation_strategy.md" := "IS"
  ]

  predicate IsAsciiUpper(c: char) {
    'A' <= c <= 'Z'
  }

  /** A code of two capital letters: the shape `[A-Z]{2}` recognises when
      an old prefixed number is stripped. */
  predicate IsPrefixCode(p: string) {
    |p| == 2 && IsAsciiUpper(p[0]) && IsAsciiUpper(p[1])
  }

  /** Every prefix is a two-letter code and no two documents share one. */
  lemma FilePrefixesWellFormed()
    ensures forall f :: f in FilePrefixMap ==> IsPrefixCode(FilePrefixMap[f])
    ensures forall f, g :: f in FilePrefixMap && g in FilePrefixMap && f != g ==> FilePrefixMap[f] != FilePrefixMap[g]
  {
  }

  // ---------------------------------------------------------------------
  // Counters

  type pos = n: int | n >= 1 witness 1

  /** The counters of the three heading levels; each holds the number the
      next heading of its level receives. */
  datatype CounterState = CounterState(level1: pos, level2: pos, level3: pos)

  /** `get_numbering_counters`. */
  const InitialCounters := CounterState(1, 1, 1)

  /** `reset_lower_counters`: the counters below `currentLevel` restart. */
  function ResetLower(c: CounterState, currentLevel: int): (r: CounterState)
    ensures r.level1 == c.level1
    ensures currentLevel <= 2 ==> r.level3 == 1
    ensures currentLevel <= 1 ==> r.level2 == 1
    ensures currentLevel > 1 ==> r.level2 == c.level2
    ensures currentLevel > 2 ==> r == c
  {
    if currentLevel <= 1 then c.(level2 := 1, level3 := 1)
    else if currentLevel <= 2 then c.(level3 := 1)
    else c
  }

  /** The counters after a heading of `level` takes its number. */
  function Advance(c: CounterState, level: int): (r: CounterState)
    requires 1 <= level <= 3
    ensures level == 1 ==> r == InitialCounters
    ensures level == 2 ==> r == c.(level2 := c.level2 + 1, level3 := 1)
    ensures level == 3 ==> r == c.(level3 := c.level3 + 1)
  {
    if level == 1 then ResetLower(c.(level1 := 1), 1)
    else if level == 2 then
      var r := ResetLower(c, 2);
      r.(level2 := r.level2 + 1)
    else c.(level3 := c.level3 + 1)
  }

  /** The number a heading of `level` receives from the counters `c` as
      they stand before it. */
  function HeadingNumber(prefix: string, level: int, c: CounterState): string
    requires 1 <= level <= 3
  {
    if level == 1 then prefix + "-1"
    else if level == 2 then prefix + "-1." + NatToString(c.level2)
    else prefix + "-1." + NatToString(c.level2 - 1) + "." + NatToString(c.level3)
  }

  lemma HeadingNumberStartsWithPrefix(prefix: string, level: int, c: CounterState)
    requires 1 <= level <= 3
    ensures StartsWith(HeadingNumber(prefix, level, c), prefix + "-")
  {
    var n := HeadingNumber(prefix, level, c);
    assert n[..|prefix| + 1] == prefix + "-";
  }

  // ---------------------------------------------------------------------
  // The regular expressions, over ASCII `\s` and `\d`

  predicate IsRegexSpace(c: char) {
    c == ' ' || c == '\t' || c == '\n' || c == '\r' || c == '\U{B}' || c == '\U{C}'
  }

  /** Where the run of `\s` starting at `i` ends. */
  function SpaceEnd(s: string, i: nat): (j: nat)
    requires i <= |s|
    ensures i <= j <= |s|
    ensures forall k :: i <= k < j ==> IsRegexSpace(s[k])
    ensures j == |s| || !IsRegexSpace(s[j])
    decreases |s| - i
  {
    if i == |s| || !IsRegexSpace(s[i]) then i else SpaceEnd(s, i + 1)
  }

  /** Where the run of `#` starting at `i` ends. */
  function HashEnd(s: string, i: nat): (j: nat)
    requires i <= |s|
    ensures i <= j <= |s|
    ensures forall k :: i <= k < j ==> s[k] == '#'
    ensures j == |s| || s[j] != '#'
    decreases |s| - i
  {
    if i == |s| || s[i] != '#' then i else HashEnd(s, i + 1)
  }

  /** `re.match(r'^#{1,3}\s*\*\*', line)`: one to three hashes, optional
      blanks, then `**`. Backtracking cannot help, since a shorter run of
      hashes or blanks leaves a `#` or a blank where `*` is needed. */
  predicate OpensBoldHeading(line: string) {
    var h := HashEnd(line, 0);
    var j := SpaceEnd(line, h);
    1 <= h <= 3 && j + 2 <= |line| && line[j] == '*' && line[j + 1] == '*'
  }

  predicate ClosesAt(s: string, k: int) {
    0 <= k && k + 2 <= |s| && s[k] == '*' && s[k + 1] == '*'
  }

  /** No line break in `s[start..end]`. */
  predicate OneLine(s: string, start: int, end: int) {
    forall m :: start <= m < end && 0 <= m < |s| ==> s[m] != '\n'
  }

  /** The lazy `(.+?)\*\*` for a text starting at `start`, trying the
      candidate end `e` first (the text is then `s[start..e]`): the first
      `**` after at least one character, with no line break in the text. */
  function CloseFrom(s: string, start: nat, e: nat): (r: Option<nat>)
    requires start < e && OneLine(s, start, e - 1)
    ensures r.Some? ==> e <= r.value && ClosesAt(s, r.value) && OneLine(s, start, r.value)
    ensures r.Some? ==> forall k :: e <= k < r.value ==> !ClosesAt(s, k)
    ensures r.None? ==> forall k :: e <= k && ClosesAt(s, k) ==> !OneLine(s, start, k)
    decreases |s| - e
  {
    if e + 2 > |s| then None
    else if s[e - 1] == '\n' then None
    else if ClosesAt(s, e) then Some(e)
    else CloseFrom(s, start, e + 1)
  }

  /** `re.match(r'^(#{1,6})\s*\*\*(.+?)\*\*', line)`: the hashes and the
      heading text, if the line has a closed bold heading. */
  function MatchHeading(line: string): (r: Option<(string, string)>)
    ensures r.Some? ==> 1 <= |r.value.0| <= 6 && StartsWith(line, r.value.0) && |r.value.1| >= 1
    ensures r.Some? ==> forall k :: 0 <= k < |r.value.1| ==> r.value.1[k] != '\n'
  {
    var h := HashEnd(line, 0);
    var j := SpaceEnd(line, h);
    if 1 <= h <= 6 && j + 2 <= |line| && line[j] == '*' && line[j + 1] == '*' then
      var close := CloseFrom(line, j + 2, j + 3);
      if close.None? then None else Some((line[..h], line[j + 2..close.value]))
    else None
  }

  /** A match of `\d+(\.\d+)*\.`: digit groups separated by single dots,
      ending in a dot. */
  predicate IsDottedNumber(s: string) {
    && |s| >= 2
    && s[|s| - 1] == '.'
    && IsDigit(s[0])
    && IsDigit(s[|s| - 2])
    && (forall k :: 0 <= k < |s| ==> IsDigit(s[k]) || s[k] == '.')
    && (forall k :: 0 <= k < |s| - 1 && s[k] == '.' ==> s[k + 1] != '.')
  }

  /** The longest prefix of `s[..n]` that is a dotted number, or 0. */
  function LongestNumberUpTo(s: string, n: nat): (r: nat)
    requires n <= |s|
    ensures r <= n
    ensures r > 0 ==> IsDottedNumber(s[..r])
    ensures forall m :: r < m <= n ==> !IsDottedNumber(s[..m])
  {
    if n == 0 then 0
    else if IsDottedNumber(s[..n]) then n
    else LongestNumberUpTo(s, n - 1)
  }

  /** What the greedy `\d+(\.\d+)*\.` takes from the start of `s`: the
      longest dotted-number prefix (0 when there is none). */
  function LongestNumber(s: string): (r: nat)
    ensures r <= |s|
  {
    LongestNumberUpTo(s, |s|)
  }

  function SkipSpaces(s: string): (r: string)
    ensures r == [] || !IsRegexSpace(r[0])
  {
    s[SpaceEnd(s, 0)..]
  }

  /** `re.sub(r'^[A-Z]{2}-\d+(\.\d+)*\.\s*', '', t)`. */
  function StripPrefixedNumber(t: string): string {
    if |t| >= 3 && IsAsciiUpper(t[0]) && IsAsciiUpper(t[1]) && t[2] == '-' && LongestNumber(t[3..]) > 0
    then SkipSpaces(t[3 + LongestNumber(t[3..])..])
    else t
  }

  /** `re.sub(r'^\d+(\.\d+)*\.\s*', '', t)`. */
  function StripNumber(t: string): string {
    var n := LongestNumber(t);
    if n > 0 then SkipSpaces(t[n..]) else t
  }

  /** The heading text without its old number. */
  function CleanText(t: string): string {
    StripNumber(StripPrefixedNumber(t))
  }

  /** A dotted number followed by a blank is taken whole. */
  lemma {:induction false} LongestNumberBeforeBlank(num: string, rest: string)
    requires IsDottedNumber(num)
    requires rest != [] && rest[0] == ' '
    ensures LongestNumber(num + rest) == |num|
  {
    var s := num + rest;
    assert s[..|num|] == num;
  }

  /** Text that does not start with a digit has no number to strip. */
  lemma UnnumberedTextKept(text: string)
    requires text != [] && !IsDigit(text[0])
    ensures StripNumber(text) == text
  {
    assert LongestNumber(text) == 0;
  }

  lemma BlankSkipped(text: string)
    requires text != [] && !IsRegexSpace(text[0])
    ensures SkipSpaces(" " + text) == text
  {
    assert SpaceEnd(" " + text, 1) == 1;
  }

  lemma PlainNumberStripped(num: string, text: string)
    requires IsDottedNumber(num)
    requires text != [] && !IsRegexSpace(text[0])
    ensures StripNumber(num + " " + text) == text
  {
    var blankText := " " + text;
    assert num + " " + text == num + blankText;
    LongestNumberBeforeBlank(num, blankText);
    assert (num + blankText)[|num|..] == blankText;
    BlankSkipped(text);
  }

  lemma PrefixedNumberStripped(code: string, num: string, text: string)
    requires IsPrefixCode(code) && IsDottedNumber(num)
    requires text != [] && !IsRegexSpace(text[0])
    ensures StripPrefixedNumber(code + "-" + num + " " + text) == text
  {
    var blankText := " " + text;
    var t := code + "-" + num + " " + text;
    assert t[3..] == num + blankText;
    LongestNumberBeforeBlank(num, blankText);
    assert t[3 + |num|..] == blankText;
    BlankSkipped(text);
  }

  /** An old number, with or without a two-letter prefix, is removed along
      with the blank after it. */
  lemma OldNumberingRemoved(code: string, num: string, text: string)
    requires IsPrefixCode(code) && IsDottedNumber(num)
    requires text != [] && !IsDigit(text[0]) && !IsRegexSpace(text[0])
    ensures CleanText(code + "-" + num + " " + text) == text
    ensures CleanText(num + " " + text) == text
  {
    PrefixedNumberStripped(code, num, text);
    UnnumberedTextKept(text);
    var plain := num + " " + text;
    assert plain[0] == num[0];
    assert StripPrefixedNumber(plain) == plain;
    PlainNumberStripped(num, text);
  }

  // ---------------------------------------------------------------------
  // One heading

  /** The skip test: the line already mentions `prefix-` and an anchor. */
  predicate AlreadyNumbered(line: string, prefix: string) {
    Contains(line, prefix + "-") && Contains(line, "{#")
  }

  /** The level a line's `#`, `##` or `###` marker gives it, or 0. */
  function HeadingLevel(line: string): (level: nat)
    ensures level <= 3
  {
    if StartsWith(line, "### ") then 3
    else if StartsWith(line, "## ") then 2
    else if StartsWith(line, "# ") then 1
    else 0
  }

  /** The rewritten heading line, with its anchor. */
  function NewHeading(hashes: string, number: string, clean: string): string {
    hashes + " **" + number + ". " + clean + "** {#" + number + "}\n"
  }

  /** `update_heading`: the line it returns and the counters after it. The
      counters move as soon as the level is known, even when the bold text
      is not closed and the line is returned as it was. */
  function HeadingStep(line: string, prefix: string, c: CounterState): (res: (string, CounterState))
    ensures AlreadyNumbered(line, prefix) || HeadingLevel(line) == 0 ==> res == (line, c)
    ensures !AlreadyNumbered(line, prefix) && HeadingLevel(line) > 0 ==> res.1 == Advance(c, HeadingLevel(line))
    ensures !AlreadyNumbered(line, prefix) && HeadingLevel(line) > 0 && MatchHeading(line).None? ==> res.0 == line
    ensures !AlreadyNumbered(line, prefix) && HeadingLevel(line) > 0 && MatchHeading(line).Some? ==>
      res.0 == NewHeading(MatchHeading(line).value.0, HeadingNumber(prefix, HeadingLevel(line), c),
                          CleanText(MatchHeading(line).value.1))
  {
    if AlreadyNumbered(line, prefix) then (line, c)
    else
      var level := HeadingLevel(line);
      if level == 0 then (line, c)
      else
        var heading := MatchHeading(line);
        if heading.None? then (line, Advance(c, level))
        else
          (NewHeading(heading.value.0, HeadingNumber(prefix, level, c), CleanText(heading.value.1)), Advance(c, level))
  }

  lemma NewHeadingIsNumbered(hashes: string, number: string, clean: string, prefix: string)
    requires StartsWith(number, prefix + "-")
    ensures AlreadyNumbered(NewHeading(hashes, number, clean), prefix)
  {
    var line := NewHeading(hashes, number, clean);
    var sub := prefix + "-";
    var at := |hashes| + 3;
    assert line[at..at + |sub|] == number[..|sub|];
    assert OccursAt(line, sub, at);
    var a := hashes + " **" + number + ". " + clean;
    assert line[|a| + 3..|a| + 5] == "{#";
    assert OccursAt(line, "{#", |a| + 3);
  }

  /** What `process_file` does with one line. */
  function LineStep(line: string, prefix: string, c: CounterState): (string, CounterState) {
    if OpensBoldHeading(line) then HeadingStep(line, prefix, c) else (line, c)
  }

  /** A line that every later pass leaves as it is, whatever the counters. */
  predicate Settled(line: string, prefix: string) {
    !OpensBoldHeading(line) || AlreadyNumbered(line, prefix) || HeadingLevel(line) == 0 || MatchHeading(line).None?
  }

  lemma SettledLineKept(line: string, prefix: string, c: CounterState)
    requires Settled(line, prefix)
    ensures LineStep(line, prefix, c).0 == line
  {
  }

  /** Whatever a pass writes for a line is settled. */
  lemma LineStepSettles(line: string, prefix: string, c: CounterState)
    ensures Settled(LineStep(line, prefix, c).0, prefix)
  {
    if OpensBoldHeading(line) && !AlreadyNumbered(line, prefix) && HeadingLevel(line) > 0 && MatchHeading(line).Some? {
      var hashes, text := MatchHeading(line).value.0, MatchHeading(line).value.1;
      var level := HeadingLevel(line);
      HeadingNumberStartsWithPrefix(prefix, level, c);
      NewHeadingIsNumbered(hashes, HeadingNumber(prefix, level, c), CleanText(text), prefix);
    }
  }

  // ---------------------------------------------------------------------
  // One file

  /** The lines `process_file` writes, and the counters at the end. */
  function Rewrite(lines: seq<string>, prefix: string): (r: (seq<string>, CounterState))
    ensures |r.0| == |lines|
  {
    if lines == [] then ([], InitialCounters)
    else
      var before := Rewrite(lines[..|lines| - 1], prefix);
      var step := LineStep(lines[|lines| - 1], prefix, before.1);
      (before.0 + [step.0], step.1)
  }

  /** Every line a pass writes is settled. */
  lemma {:induction false} RewriteSettles(lines: seq<string>, prefix: string)
    ensures forall k :: 0 <= k < |Rewrite(lines, prefix).0| ==> Settled(Rewrite(lines, prefix).0[k], prefix)
  {
    if lines != [] {
      var init := lines[..|lines| - 1];
      RewriteSettles(init, prefix);
      LineStepSettles(lines[|lines| - 1], prefix, Rewrite(init, prefix).1);
    }
  }

  lemma {:induction false} SettledLinesKept(lines: seq<string>, prefix: string)
    requires forall k :: 0 <= k < |lines| ==> Settled(lines[k], prefix)
    ensures Rewrite(lines, prefix).0 == lines
  {
    if lines != [] {
      var init := lines[..|lines| - 1];
      SettledLinesKept(init, prefix);
      SettledLineKept(lines[|lines| - 1], prefix, Rewrite(init, prefix).1);
    }
  }

  /** Running the script twice writes what running it once wrote: every
      rewritten heading carries the prefix and an anchor, so the skip test
      keeps it, and every other line is passed over for a reason the
      counters do not affect. */
  lemma RewriteIdempotent(lines: seq<string>, prefix: string)
    ensures Rewrite(Rewrite(lines, prefix).0, prefix).0 == Rewrite(lines, prefix).0
  {
    RewriteSettles(lines, prefix);
    SettledLinesKept(Rewrite(lines, prefix).0, prefix);
  }

  /** A line that moves the counter of `level`. */
  predicate Counts(line: string, prefix: string, level: int) {
    OpensBoldHeading(line) && !AlreadyNumbered(line, prefix) && HeadingLevel(line) == level
  }

  /** How many headings of `level` follow the last heading of a higher
      rank (a lower level number). */
  function SinceReset(lines: seq<string>, prefix: string, level: int): nat {
    if lines == [] then 0
    else
      var last := lines[|lines| - 1];
      if exists higher :: 1 <= higher < level && Counts(last, prefix, higher) then 0
      else SinceReset(lines[..|lines| - 1], prefix, level) + (if Counts(last, prefix, level) then 1 else 0)
  }

  /** The counters after a prefix of the file: the level-2 counter is one
      past the level-2 headings since the last level-1 heading, the level-3
      counter one past the level-3 headings since the last heading above
      level 3. Already numbered headings do not count. */
  lemma {:induction false} CountersTrackHeadings(lines: seq<string>, prefix: string)
    ensures Rewrite(lines, prefix).1 ==
      CounterState(1, 1 + SinceReset(lines, prefix, 2), 1 + SinceReset(lines, prefix, 3))
  {
    if lines != [] {
      var init, last := lines[..|lines| - 1], lines[|lines| - 1];
      CountersTrackHeadings(init, prefix);
      var c := Rewrite(init, prefix).1;
      assert Rewrite(lines, prefix).1 == LineStep(last, prefix, c).1;
      if Counts(last, prefix, 1) {
        assert SinceReset(lines, prefix, 2) == 0 && SinceReset(lines, prefix, 3) == 0;
      } else if Counts(last, prefix, 2) {
        assert SinceReset(lines, prefix, 2) == SinceReset(init, prefix, 2) + 1;
        assert SinceReset(lines, prefix, 3) == 0;
      } else {
        assert !Counts(last, prefix, 1) && !Counts(last, prefix, 2);
        assert SinceReset(lines, prefix, 2) == SinceReset(init, prefix, 2);
        assert SinceReset(lines, prefix, 3) == SinceReset(init, prefix, 3) + (if Counts(last, prefix, 3) then 1 else 0);
      }
    }
  }

  /** A level-1 heading is always numbered `P-1`, whatever came before. */
  lemma FirstLevelNumber(lines: seq<string>, line: string, prefix: string)
    requires Counts(line, prefix, 1) && MatchHeading(line).Some?
    ensures var all := lines + [line];
      Rewrite(all, prefix).0[|lines|] == NewHeading(MatchHeading(line).value.0, prefix + "-1",
                                                    CleanText(MatchHeading(line).value.1))
  {
    var all := lines + [line];
    assert all[..|all| - 1] == lines;
  }

  /** The n-th level-2 heading since the last level-1 heading is numbered
      `P-1.n`. */
  lemma SecondLevelNumberIsOrdinal(lines: seq<string>, line: string, prefix: string)
    requires Counts(line, prefix, 2) && MatchHeading(line).Some?
    ensures var all := lines + [line];
      && SinceReset(all, prefix, 2) == SinceReset(lines, prefix, 2) + 1
      && Rewrite(all, prefix).0[|lines|] == NewHeading(MatchHeading(line).value.0,
           prefix + "-1." + NatToString(SinceReset(all, prefix, 2)), CleanText(MatchHeading(line).value.1))
  {
    var all := lines + [line];
    assert all[..|all| - 1] == lines;
    CountersTrackHeadings(lines, prefix);
  }

  /** The m-th level-3 heading after the n-th level-2 heading (both since
      their last reset) is numbered `P-1.n.m`. */
  lemma ThirdLevelNumberIsOrdinal(lines: seq<string>, line: string, prefix: string)
    requires Counts(line, prefix, 3) && MatchHeading(line).Some?
    ensures var all := lines + [line];
      && SinceReset(all, prefix, 3) == SinceReset(lines, prefix, 3) + 1
      && Rewrite(all, prefix).0[|lines|] == NewHeading(MatchHeading(line).value.0,
           prefix + "-1." + NatToString(SinceReset(lines, prefix, 2)) + "." + NatToString(SinceReset(all, prefix, 3)),
           CleanText(MatchHeading(line).value.1))
  {
    var all := lines + [line];
    assert all[..|all| - 1] == lines;
    CountersTrackHeadings(lines, prefix);
    var c := Rewrite(lines, prefix).1;
    assert Rewrite(all, prefix).0 == Rewrite(lines, prefix).0 + [LineStep(line, prefix, c).0];
    assert !Counts(line, prefix, 1) && !Counts(line, prefix, 2);
    assert SinceReset(all, prefix, 3) == SinceReset(lines, prefix, 3) + 1;
    assert c.level2 - 1 == SinceReset(lines, prefix, 2) && c.level3 == SinceReset(all, prefix, 3);
  }

  // ---------------------------------------------------------------------
  // The script's state, updated in place

  /** The counters `process_file` threads through `update_heading`. */
  class Counters {
    var level1: pos
    var level2: pos
    var level3: pos

    function State(): CounterState
      reads this
    {
      CounterState(level1, level2, level3)
    }

    /** `get_numbering_counters`. */
    constructor ()
      ensures State() == InitialCounters
    {
      level1, level2, level3 := 1, 1, 1;
    }

    /** `reset_lower_counters`. */
    method ResetLowerCounters(currentLevel: int)
      modifies this
      ensures State() == ResetLower(old(State()), currentLevel)
    {
      if currentLevel <= 1 {
        level2 := 1;
        level3 := 1;
      } else if currentLevel <= 2 {
        level3 := 1;
      }
    }

    /** `update_heading`. */
    method UpdateHeading(line: string, prefix: string) returns (newLine: string)
      modifies this
      ensures (newLine, State()) == HeadingStep(line, prefix, old(State()))
    {
      if Contains(line, prefix + "-") && Contains(line, "{#") {
        return line;
      }
      var level := 0;
      if StartsWith(line, "### ") {
        level := 3;
      } else if StartsWith(line, "## ") {
        level := 2;
      } else if StartsWith(line, "# ") {
        level := 1;
      } else {
        return line;
      }
      ghost var before := State();
      var currentNum: pos := 1;
      if level == 1 {
        level1 := 1;
        ResetLowerCounters(1);
      } else if level == 2 {
        ResetLowerCounters(2);
        currentNum := level2;
        level2 := level2 + 1;
      } else {
        currentNum := level3;
        level3 := level3 + 1;
      }
      var heading := MatchHeading(line);
      if heading.None? {
        return line;
      }
      var hashes, text := heading.value.0, heading.value.1;
      var number: string;
      if level == 1 {
        number := prefix + "-1";
      } else if level == 2 {
        number := prefix + "-1." + NatToString(currentNum);
      } else {
        number := prefix + "-1." + NatToString(level2 - 1) + "." + NatToString(currentNum);
      }
      assert number == HeadingNumber(prefix, level, before);
      newLine := NewHeading(hashes, number, CleanText(text));
    }
  }

  /** One more line: `Rewrite` of the first `i + 1` lines is `Rewrite` of
      the first `i` followed by one `LineStep`. */
  lemma RewriteStep(lines: seq<string>, i: nat, prefix: string)
    requires i < |lines|
    ensures var before := Rewrite(lines[..i], prefix);
      var step := LineStep(lines[i], prefix, before.1);
      Rewrite(lines[..i + 1], prefix) == (before.0 + [step.0], step.1)
  {
    assert lines[..i + 1][..i] == lines[..i];
  }

  /** Appending `x` to the first `|out|` lines written: some written
      line differs from its input line exactly when one did before or `x`
      differs from the next input line. */
  lemma DiffersAfterAppend(out: seq<string>, lines: seq<string>, x: string)
    requires |out| < |lines|
    ensures (exists k :: 0 <= k < |out| + 1 && (out + [x])[k] != lines[k])
      <==> (exists k :: 0 <= k < |out| && out[k] != lines[k]) || x != lines[|out|]
  {
    if exists k :: 0 <= k < |out| && out[k] != lines[k] {
      var k :| 0 <= k < |out| && out[k] != lines[k];
      assert (out + [x])[k] == out[k];
    }
    if x != lines[|out|] {
      assert (out + [x])[|out|] == x;
    }
  }

  /** One line of `process_file`: a line that opens a bold heading goes
      through `update_heading`, any other line is kept. */
  method ProcessLine(counters: Counters, line: string, prefix: string) returns (newLine: string)
    modifies counters
    ensures (newLine, counters.State()) == LineStep(line, prefix, old(counters.State()))
  {
    if OpensBoldHeading(line) {
      newLine := counters.UpdateHeading(line, prefix);
    } else {
      newLine := line;
    }
  }

  /** `process_file` on the file's lines: the lines to write back, and
      whether any heading changed (the file is written only then). */
  method ProcessFile(lines: seq<string>, prefix: string) returns (out: seq<string>, modified: bool)
    ensures out == Rewrite(lines, prefix).0
    ensures modified <==> out != lines
  {
    var counters := new Counters();
    out := [];
    modified := false;
    for i := 0 to |lines|
      invariant |out| == i
      invariant (out, counters.State()) == Rewrite(lines[..i], prefix)
      invariant modified <==> exists k :: 0 <= k < i && out[k] != lines[k]
    {
      assert lines[..i + 1] == lines[..i] + [lines[i]];
      RewriteStep(lines, i, prefix);
      var newLine := ProcessLine(counters, lines[i], prefix);
      DiffersAfterAppend(out, lines, newLine);
      if newLine != lines[i] {
        modified := true;
      }
      out := out + [newLine];
    }
    assert lines[..|lines|] == lines;
  }
}
