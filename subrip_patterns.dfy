/**
 * The two regular expressions of the SubRip parser, written out as the
 * java.util.regex engine runs them:
 *
 *   SUBRIP_TIMING_LINE = (.*)\s+-->\s+(.*)             used with find()
 *   SUBRIP_TIMESTAMP   = (?:(\d+):)?(\d+):(\d+),(\d+)  used with matches()
 *
 * find() tries start positions left to right and, at each one, explores the
 * alternatives in the order a backtracking engine does: greedy quantifiers
 * try their longest run first. The lemmas characterise the match the engine
 * settles on without reference to that search order.
 */
module SubripPatterns {
  import opened JavaLang

  // ---------------------------------------------------------------------
  // Runs of one character class
  // ---------------------------------------------------------------------

  /** The end of the longest run of `\s` starting at i. */
  function WhitespaceRunEnd(s: string, i: nat): (e: nat)
    requires i <= |s|
    ensures i <= e <= |s|
    ensures forall p :: i <= p < e ==> IsWhitespace(s[p])
    ensures e < |s| ==> !IsWhitespace(s[e])
    decreases |s| - i
  {
    if i == |s| || !IsWhitespace(s[i]) then i else WhitespaceRunEnd(s, i + 1)
  }

  /** The end of the longest run of `.` (anything but a line terminator) starting at i. */
  function DotRunEnd(s: string, i: nat): (e: nat)
    requires i <= |s|
    ensures i <= e <= |s|
    ensures forall p :: i <= p < e ==> !IsLineTerminator(s[p])
    ensures e < |s| ==> IsLineTerminator(s[e])
    decreases |s| - i
  {
    if i == |s| || IsLineTerminator(s[i]) then i else DotRunEnd(s, i + 1)
  }

  /** The end of the longest run of `\d` starting at i. */
  function DigitRunEnd(s: string, i: nat): (e: nat)
    requires i <= |s|
    ensures i <= e <= |s|
    ensures forall p :: i <= p < e ==> IsDigit(s[p])
    ensures e < |s| ==> !IsDigit(s[e])
    decreases |s| - i
  {
    if i == |s| || !IsDigit(s[i]) then i else DigitRunEnd(s, i + 1)
  }

  // ---------------------------------------------------------------------
  // SUBRIP_TIMING_LINE
  // ---------------------------------------------------------------------

  /**
   * An arrow the timing pattern can use: "-->" at k with a `\s` character
   * right before it and right after it.
   */
  predicate ArrowAt(s: string, k: int) {
    1 <= k && k + 4 <= |s| && IsWhitespace(s[k - 1]) && s[k..k + 3] == "-->" && IsWhitespace(s[k + 3])
  }

  /**
   * The tail `\s+-->\s+(.*)` matched from position j; the second group on
   * success. The first `\s+` can only be followed by '-' where its run of
   * whitespace ends, so its greedy longest run is the one alternative that can
   * succeed; after the second `\s+` the group `(.*)` always succeeds, so the
   * engine keeps its first, longest choices.
   */
  function ArrowTail(s: string, j: nat): (r: Option<string>)
    requires j <= |s|
    ensures r.Some? <==> ArrowAt(s, WhitespaceRunEnd(s, j)) && j < WhitespaceRunEnd(s, j)
  {
    var k := WhitespaceRunEnd(s, j);
    if j < k && k + 3 < |s| && s[k..k + 3] == "-->" && IsWhitespace(s[k + 3]) then
      var m := WhitespaceRunEnd(s, k + 3);
      Some(s[m..DotRunEnd(s, m)])
    else
      None
  }

  /**
   * The whole pattern at start i with the first group s[i..j], backtracking
   * the greedy `(.*)` from its longest run j down to the empty one.
   */
  function MatchWithGroupEnd(s: string, i: nat, j: nat): Option<(string, string)>
    requires i <= j <= |s|
    decreases j - i
  {
    match ArrowTail(s, j)
    case Some(right) => Some((s[i..j], right))
    case None => if j == i then None else MatchWithGroupEnd(s, i, j - 1)
  }

  /** find() from start position i onwards: the first start at which the pattern matches. */
  function FindFrom(s: string, i: nat): Option<(string, string)>
    requires i <= |s|
    decreases |s| - i
  {
    var here := MatchWithGroupEnd(s, i, DotRunEnd(s, i));
    if here.Some? || i == |s| then here else FindFrom(s, i + 1)
  }

  /** SUBRIP_TIMING_LINE.matcher(line).find(), with group(1) and group(2) on success. */
  function FindTimingLine(line: string): Option<(string, string)>
  {
    FindFrom(line, 0)
  }

  lemma MatchWithGroupEndNone(s: string, i: nat, j: nat, j': nat)
    requires i <= j' <= j <= |s|
    requires MatchWithGroupEnd(s, i, j).None?
    ensures ArrowTail(s, j').None?
    decreases j - i
  {
    if j' < j {
      MatchWithGroupEndNone(s, i, j - 1, j');
    }
  }

  lemma FindFromNone(s: string, i: nat, i': nat)
    requires i <= i' <= |s|
    requires FindFrom(s, i).None?
    ensures MatchWithGroupEnd(s, i', DotRunEnd(s, i')).None?
    decreases |s| - i
  {
    if i < i' {
      FindFromNone(s, i + 1, i');
    }
  }

  lemma MatchWithGroupEndSome(s: string, i: nat, j: nat)
    requires i <= j <= |s|
    requires MatchWithGroupEnd(s, i, j).Some?
    ensures exists k :: ArrowAt(s, k)
    decreases j - i
  {
    if ArrowTail(s, j).None? {
      MatchWithGroupEndSome(s, i, j - 1);
    }
  }

  lemma FindFromSome(s: string, i: nat)
    requires i <= |s|
    requires FindFrom(s, i).Some?
    ensures exists k :: ArrowAt(s, k)
    decreases |s| - i
  {
    if MatchWithGroupEnd(s, i, DotRunEnd(s, i)).Some? {
      MatchWithGroupEndSome(s, i, DotRunEnd(s, i));
    } else {
      FindFromSome(s, i + 1);
    }
  }

  /** The whitespace before a usable arrow ends at the arrow. */
  lemma WhitespaceBeforeArrow(s: string, k: nat)
    requires ArrowAt(s, k)
    ensures WhitespaceRunEnd(s, k - 1) == k
  {
    assert s[k] == s[k..k + 3][0] == '-';
    assert WhitespaceRunEnd(s, k) == k;
  }

  /** A usable arrow anywhere is found: the match starting just before it cannot fail. */
  lemma ArrowFound(line: string, k: nat)
    requires ArrowAt(line, k)
    ensures FindTimingLine(line).Some?
  {
    if FindTimingLine(line).None? {
      FindFromNone(line, 0, k - 1);
      WhitespaceBeforeArrow(line, k);
      MatchWithGroupEndNone(line, k - 1, DotRunEnd(line, k - 1), k - 1);
      assert false;
    }
  }

  /** A timing line is recognised exactly when it holds a whitespace-flanked arrow somewhere. */
  lemma TimingLineFoundIff(line: string)
    ensures FindTimingLine(line).Some? <==> exists k :: ArrowAt(line, k)
  {
    if FindTimingLine(line).Some? {
      FindFromSome(line, 0);
    } else if k :| ArrowAt(line, k) {
      ArrowFound(line, k);
    }
  }

  lemma MatchWithGroupEndSkips(s: string, i: nat, j: nat, stop: nat)
    requires i <= stop <= j <= |s|
    requires forall j' :: stop < j' <= j ==> ArrowTail(s, j').None?
    ensures MatchWithGroupEnd(s, i, j) == MatchWithGroupEnd(s, i, stop)
    decreases j - stop
  {
    if stop < j {
      MatchWithGroupEndSkips(s, i, j - 1, stop);
    }
  }

  /**
   * On a line without line terminators, the greedy first group runs to the
   * LAST usable arrow: the left token is everything before the one `\s`
   * character that precedes that arrow (so it keeps any other whitespace
   * before it), and the right token is everything after the arrow once its
   * leading whitespace is skipped.
   */
  lemma {:induction false} TimingLineSplitsAtLastArrow(line: string, k: nat)
    requires forall p :: 0 <= p < |line| ==> !IsLineTerminator(line[p])
    requires ArrowAt(line, k)
    requires forall k' :: k < k' ==> !ArrowAt(line, k')
    ensures FindTimingLine(line) == Some((line[..k - 1], line[WhitespaceRunEnd(line, k + 3)..]))
  {
    assert DotRunEnd(line, 0) == |line|;
    assert forall j' :: k - 1 < j' <= |line| ==> ArrowTail(line, j').None?;
    MatchWithGroupEndSkips(line, 0, |line|, k - 1);
    WhitespaceBeforeArrow(line, k);
    var m := WhitespaceRunEnd(line, k + 3);
    assert DotRunEnd(line, m) == |line|;
    assert line[k..k + 3] == "-->";
    assert k + 3 < |line|;
    assert ArrowTail(line, k - 1) == Some(line[m..DotRunEnd(line, m)]);
    assert line[m..DotRunEnd(line, m)] == line[m..];
    assert MatchWithGroupEnd(line, 0, k - 1) == Some((line[0..k - 1], line[m..]));
  }

  /** Characters a timestamp token can consist of. */
  predicate IsTimestampChar(c: char) { IsDigit(c) || c == ':' || c == ',' }

  predicate AllTimestampChars(s: string) { forall i :: 0 <= i < |s| ==> IsTimestampChar(s[i]) }

  /** The timing line a SubRip writer produces, "<start> --> <end>", gives back both tokens. */
  lemma {:induction false} TimingLineOfTokens(left: string, right: string)
    requires AllTimestampChars(left) && AllTimestampChars(right)
    ensures FindTimingLine(left + " --> " + right) == Some((left, right))
  {
    var line := left + " --> " + right;
    var k := |left| + 1;
    assert line[k..k + 3] == "-->";
    assert ArrowAt(line, k);
    assert forall k' :: k < k' ==> !ArrowAt(line, k');
    forall p | 0 <= p < |line|
      ensures !IsLineTerminator(line[p])
    {
      if p < |left| {
        assert line[p] == left[p];
      } else if p >= k + 4 {
        assert line[p] == right[p - k - 4];
      }
    }
    assert WhitespaceRunEnd(line, k + 3) == k + 4 by {
      assert WhitespaceRunEnd(line, k + 4) == k + 4 by {
        if k + 4 < |line| {
          assert line[k + 4] == right[0];
        }
      }
    }
    TimingLineSplitsAtLastArrow(line, k);
    assert line[..k - 1] == left;
    assert line[k + 4..] == right;
  }

  // ---------------------------------------------------------------------
  // SUBRIP_TIMESTAMP
  // ---------------------------------------------------------------------

  /** The capture groups of a full timestamp match; `hours` is None when group 1 did not participate. */
  datatype TimestampGroups = TimestampGroups(hours: Option<string>, minutes: string, seconds: string, millis: string)

  predicate IsNumeral(s: string) { s != [] && AllDigits(s) }

  predicate WellFormedGroups(g: TimestampGroups) {
    (g.hours.Some? ==> IsNumeral(g.hours.value)) && IsNumeral(g.minutes) && IsNumeral(g.seconds) && IsNumeral(g.millis)
  }

  /** The token the groups were taken from. */
  function RenderTimestamp(g: TimestampGroups): string {
    (if g.hours.Some? then g.hours.value + ":" else "") + g.minutes + ":" + g.seconds + "," + g.millis
  }

  /** `(\d+):(\d+),(\d+)` matched from i to the very end of s. */
  function MatchMinutesOnward(s: string, i: nat): Option<(string, string, string)>
    requires i <= |s|
  {
    var a := DigitRunEnd(s, i);
    if a == i || a == |s| || s[a] != ':' then None
    else
      var b := DigitRunEnd(s, a + 1);
      if b == a + 1 || b == |s| || s[b] != ',' then None
      else
        var c := DigitRunEnd(s, b + 1);
        if c == b + 1 || c != |s| then None
        else Some((s[i..a], s[a + 1..b], s[b + 1..c]))
  }

  /** The three groups of a match are numerals, and with their separators they make up s from i on. */
  lemma MatchMinutesOnwardSplits(s: string, i: nat)
    requires i <= |s| && MatchMinutesOnward(s, i).Some?
    ensures var (m, sec, f) := MatchMinutesOnward(s, i).value;
            IsNumeral(m) && IsNumeral(sec) && IsNumeral(f) && s[i..] == m + ":" + sec + "," + f
  {
    var a := DigitRunEnd(s, i);
    var b := DigitRunEnd(s, a + 1);
    var c := DigitRunEnd(s, b + 1);
    assert s[b + 1..] == s[b + 1..c];
    assert s[a + 1..] == s[a + 1..b] + [s[b]] + s[b + 1..];
    assert s[i..] == s[i..a] + [s[a]] + s[a + 1..];
  }

  /**
   * SUBRIP_TIMESTAMP.matcher(s).matches(): the optional group `(?:(\d+):)?`
   * is greedy, so the engine first tries it present and drops it only when
   * the rest cannot then match.
   */
  function MatchTimestamp(s: string): Option<TimestampGroups> {
    var d := DigitRunEnd(s, 0);
    var withHours := if 0 < d < |s| && s[d] == ':' then MatchMinutesOnward(s, d + 1) else None;
    if withHours.Some? then
      var (m, sec, f) := withHours.value;
      Some(TimestampGroups(Some(s[..d]), m, sec, f))
    else
      match MatchMinutesOnward(s, 0)
      case Some((m, sec, f)) => Some(TimestampGroups(None, m, sec, f))
      case None => None
  }

  /** A successful match has numeric groups and reproduces s exactly. */
  lemma MatchTimestampRenders(s: string)
    requires MatchTimestamp(s).Some?
    ensures WellFormedGroups(MatchTimestamp(s).value) && RenderTimestamp(MatchTimestamp(s).value) == s
  {
    var d := DigitRunEnd(s, 0);
    var withHours := if 0 < d < |s| && s[d] == ':' then MatchMinutesOnward(s, d + 1) else None;
    if withHours.Some? {
      MatchMinutesOnwardSplits(s, d + 1);
      var (m, sec, f) := withHours.value;
      GroupsWithHours(s, d, m, sec, f);
    } else {
      MatchMinutesOnwardSplits(s, 0);
      var (m, sec, f) := MatchMinutesOnward(s, 0).value;
      GroupsWithoutHours(s, m, sec, f);
    }
  }

  /** The rendered token is the optional hours prefix followed by the minutes-onward part. */
  lemma RenderSplits(g: TimestampGroups)
    ensures RenderTimestamp(g)
         == (if g.hours.Some? then g.hours.value + ":" else "") + (g.minutes + ":" + g.seconds + "," + g.millis)
  {
  }

  lemma GroupsWithHours(s: string, d: nat, m: string, sec: string, f: string)
    requires 0 < d < |s| && s[d] == ':' && d == DigitRunEnd(s, 0)
    requires IsNumeral(m) && IsNumeral(sec) && IsNumeral(f)
    requires s[d + 1..] == m + ":" + sec + "," + f
    ensures WellFormedGroups(TimestampGroups(Some(s[..d]), m, sec, f))
    ensures RenderTimestamp(TimestampGroups(Some(s[..d]), m, sec, f)) == s
  {
    LeadingDigits(s, d);
    RenderSplits(TimestampGroups(Some(s[..d]), m, sec, f));
    ColonSplits(s, d);
  }

  lemma LeadingDigits(s: string, d: nat)
    requires 0 < d <= |s| && d == DigitRunEnd(s, 0)
    ensures IsNumeral(s[..d])
  {
  }

  lemma ColonSplits(s: string, d: nat)
    requires d < |s| && s[d] == ':'
    ensures s == s[..d] + ":" + s[d + 1..]
  {
    assert s == s[..d] + [s[d]] + s[d + 1..];
  }

  lemma GroupsWithoutHours(s: string, m: string, sec: string, f: string)
    requires IsNumeral(m) && IsNumeral(sec) && IsNumeral(f)
    requires s[0..] == m + ":" + sec + "," + f
    ensures WellFormedGroups(TimestampGroups(None, m, sec, f))
    ensures RenderTimestamp(TimestampGroups(None, m, sec, f)) == s
  {
    assert s[0..] == s;
  }

  lemma DigitRunEndIs(s: string, i: nat, e: nat)
    requires i <= e <= |s|
    requires forall p :: i <= p < e ==> IsDigit(s[p])
    requires e < |s| ==> !IsDigit(s[e])
    ensures DigitRunEnd(s, i) == e
    decreases |s| - i
  {
    if i < e {
      DigitRunEndIs(s, i + 1, e);
    }
  }

  lemma MatchMinutesOnwardOf(pre: string, m: string, sec: string, f: string)
    requires IsNumeral(m) && IsNumeral(sec) && IsNumeral(f)
    ensures MatchMinutesOnward(pre + m + ":" + sec + "," + f, |pre|) == Some((m, sec, f))
  {
    var s := pre + m + ":" + sec + "," + f;
    var i := |pre|;
    var a := i + |m|;
    var b := a + 1 + |sec|;
    assert s[i..a] == m;
    assert s[a] == ':';
    assert s[a + 1..b] == sec;
    assert s[b] == ',';
    assert s[b + 1..] == f;
    DigitRunEndIs(s, i, a);
    DigitRunEndIs(s, a + 1, b);
    DigitRunEndIs(s, b + 1, |s|);
    assert !(a == i || a == |s| || s[a] != ':');
    assert !(b == a + 1 || b == |s| || s[b] != ',');
    assert s[b + 1..|s|] == f;
    assert MatchMinutesOnward(s, i) == Some((m, sec, f));
  }

  /** matches() gives back, group by group, any token rendered from well-formed groups. */
  lemma {:induction false} MatchTimestampOfRender(g: TimestampGroups)
    requires WellFormedGroups(g)
    ensures MatchTimestamp(RenderTimestamp(g)) == Some(g)
  {
    var s := RenderTimestamp(g);
    match g.hours
    case Some(h) =>
      assert s == h + ":" + g.minutes + ":" + g.seconds + "," + g.millis;
      DigitRunEndIs(s, 0, |h|);
      MatchMinutesOnwardOf(h + ":", g.minutes, g.seconds, g.millis);
      assert h + ":" + g.minutes + ":" + g.seconds + "," + g.millis
          == (h + ":") + g.minutes + ":" + g.seconds + "," + g.millis;
      assert s[..|h|] == h;
    case None =>
      assert s == [] + g.minutes + ":" + g.seconds + "," + g.millis;
      var d := |g.minutes|;
      DigitRunEndIs(s, 0, d);
      var a := d + 1 + |g.seconds|;
      DigitRunEndIs(s, d + 1, a);
      assert s[a] == ',';
      MatchMinutesOnwardOf([], g.minutes, g.seconds, g.millis);
  }

  /** Every character of a matched timestamp is a digit, ':' or ','. */
  lemma RenderedTimestampChars(g: TimestampGroups)
    requires WellFormedGroups(g)
    ensures AllTimestampChars(RenderTimestamp(g))
  {
  }
}
