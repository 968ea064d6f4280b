/**
 * What the SubRip parser promises, stated over ParseDocument (which the
 * method Parser.Parse computes) and over its parts: the empty document,
 * the shape and order of the output lists, the start-time offset, the
 * timestamp arithmetic and what it refuses, the error raised for each kind
 * of bad block, the text joining rule, and reading back a well-formed
 * document.
 */
module SubripProperties {
  import opened JavaLang
  import opened SubripPatterns
  import opened SubripParser

  // ---------------------------------------------------------------------
  // Timestamps
  // ---------------------------------------------------------------------

  /** The microseconds h:m:s,f stands for; the fraction f counts milliseconds as written, unscaled. */
  function TimestampUsOf(h: nat, m: nat, s: nat, f: nat): nat {
    ((h * 3600 + m * 60 + s) * 1000 + f) * 1000
  }

  /** A token with all four groups, each within Long.parseLong's range, is read as its value in microseconds. */
  lemma TimestampValue(g: TimestampGroups)
    requires WellFormedGroups(g) && g.hours.Some?
    requires DecimalValue(g.hours.value) <= LongMax && DecimalValue(g.minutes) <= LongMax
    requires DecimalValue(g.seconds) <= LongMax && DecimalValue(g.millis) <= LongMax
    ensures ParseTimestampUs(RenderTimestamp(g))
         == Some(TimestampUsOf(DecimalValue(g.hours.value), DecimalValue(g.minutes), DecimalValue(g.seconds), DecimalValue(g.millis)))
  {
    MatchTimestampOfRender(g);
    ParseLongOfDigits(g.hours.value);
    ParseLongOfDigits(g.minutes);
    ParseLongOfDigits(g.seconds);
    ParseLongOfDigits(g.millis);
    TimestampOfGroupValues(RenderTimestamp(g), g.hours.value, g.minutes, g.seconds, g.millis);
  }

  /** Once the token matches with all four groups, its value is the arithmetic on their parsed values. */
  lemma TimestampOfGroupValues(s: string, h: string, m: string, sec: string, f: string)
    requires MatchTimestamp(s) == Some(TimestampGroups(Some(h), m, sec, f))
    requires ParseLong(h).Some? && ParseLong(m).Some? && ParseLong(sec).Some? && ParseLong(f).Some?
    ensures ParseLong(h).value >= 0 && ParseLong(m).value >= 0 && ParseLong(sec).value >= 0 && ParseLong(f).value >= 0
    ensures ParseTimestampUs(s) == Some(TimestampUsOf(ParseLong(h).value, ParseLong(m).value, ParseLong(sec).value, ParseLong(f).value))
  {
    MatchedGroupsNonNegative(s, h, m, sec, f);
  }

  /** The groups of a match are digit strings, so Long.parseLong never reads them as negative. */
  lemma MatchedGroupsNonNegative(s: string, h: string, m: string, sec: string, f: string)
    requires MatchTimestamp(s) == Some(TimestampGroups(Some(h), m, sec, f))
    requires ParseLong(h).Some? && ParseLong(m).Some? && ParseLong(sec).Some? && ParseLong(f).Some?
    ensures ParseLong(h).value >= 0 && ParseLong(m).value >= 0 && ParseLong(sec).value >= 0 && ParseLong(f).value >= 0
  {
    MatchTimestampRenders(s);
  }

  /** A group too long for Long.parseLong makes the whole token fail. */
  lemma TimestampGroupOutOfRange(g: TimestampGroups)
    requires WellFormedGroups(g) && g.hours.Some?
    requires DecimalValue(g.hours.value) > LongMax || DecimalValue(g.minutes) > LongMax
          || DecimalValue(g.seconds) > LongMax || DecimalValue(g.millis) > LongMax
    ensures ParseTimestampUs(RenderTimestamp(g)) == None
  {
    MatchTimestampOfRender(g);
    ParseLongOfNumeral(g.hours.value);
    ParseLongOfNumeral(g.minutes);
    ParseLongOfNumeral(g.seconds);
    ParseLongOfNumeral(g.millis);
  }

  lemma ParseLongOfNumeral(ds: string)
    requires IsNumeral(ds)
    ensures ParseLong(ds) == if DecimalValue(ds) <= LongMax then Some(DecimalValue(ds)) else None
  {
    if DecimalValue(ds) <= LongMax {
      ParseLongOfDigits(ds);
    } else {
      ParseLongOutOfRange(ds);
    }
  }

  /** A token that matches without the hours group is refused: the absent group reaches Long.parseLong as null. */
  lemma HourlessTimestampRejected(g: TimestampGroups)
    requires WellFormedGroups(g) && g.hours.None?
    ensures ParseTimestampUs(RenderTimestamp(g)) == None
  {
    MatchTimestampOfRender(g);
  }

  /** An accepted token starts and ends with a digit, so no whitespace survives around it. */
  lemma TimestampIsBareToken(s: string)
    requires ParseTimestampUs(s).Some?
    ensures s != [] && IsDigit(s[0]) && IsDigit(s[|s| - 1])
  {
    var g := MatchTimestamp(s).value;
    var h := g.hours.value;
    MatchTimestampRenders(s);
    RenderSplits(g);
    assert s == (h + ":") + (g.minutes + ":" + g.seconds + "," + g.millis);
    assert s[0] == h[0];
    assert s[|s| - 1] == g.millis[|g.millis| - 1];
  }

  /** A timestamp followed by whitespace does not fully match, and is refused. */
  lemma TimestampWithTrailingSpaceRejected(s: string, c: char)
    requires IsWhitespace(c)
    ensures ParseTimestampUs(s + [c]) == None
  {
    if ParseTimestampUs(s + [c]).Some? {
      TimestampIsBareToken(s + [c]);
    }
  }

  lemma ExampleTimestamp()
    ensures ParseTimestampUs("01:02:03,004") == Some(3_723_004_000)
  {
    var g := TimestampGroups(Some("01"), "02", "03", "004");
    assert DecimalValue("01") == 1 by { assert "01"[..1] == "0"; }
    assert DecimalValue("02") == 2 by { assert "02"[..1] == "0"; }
    assert DecimalValue("03") == 3 by { assert "03"[..1] == "0"; }
    assert DecimalValue("004") == 4 by {
      assert "004"[..2] == "00";
      assert "00"[..1] == "0";
    }
    assert RenderTimestamp(g) == "01:02:03,004";
    TimestampValue(g);
  }

  /** The fraction is a count of milliseconds: ",5" adds 5 ms, not half a second. */
  lemma ExampleUnscaledFraction()
    ensures ParseTimestampUs("00:00:01,5") == Some(1_005_000)
  {
    var g := TimestampGroups(Some("00"), "00", "01", "5");
    assert DecimalValue("00") == 0 by { assert "00"[..1] == "0"; }
    assert DecimalValue("01") == 1 by { assert "01"[..1] == "0"; }
    assert DecimalValue("5") == 5;
    assert RenderTimestamp(g) == "00:00:01,5";
    TimestampValue(g);
  }

  lemma ExampleHourlessTimestamp()
    ensures ParseTimestampUs("02:03,004") == None
  {
    var g := TimestampGroups(None, "02", "03", "004");
    assert RenderTimestamp(g) == "02:03,004";
    HourlessTimestampRejected(g);
  }

  // ---------------------------------------------------------------------
  // Errors
  // ---------------------------------------------------------------------

  /** No lines: no cues, no times, no error. */
  lemma EmptyInput(startTimeUs: int)
    ensures ParseDocument([], startTimeUs) == Success(SubripSubtitle(startTimeUs, [], []))
  {
    assert ParseBlocks([], 0) == Success([]);
  }

  /** A first line that Integer.parseInt refuses, the empty line included, fails with a ParserException naming it. */
  lemma DocumentCounterRejected(lines: seq<string>, startTimeUs: int)
    requires lines != [] && ParseInt(lines[0]).None?
    ensures ParseDocument(lines, startTimeUs) == Failure(ParserException(CounterMessage + lines[0]))
  {
    CounterRejected(lines, 0);
  }

  /** Counters with leading zeros or a sign are accepted, as Integer.parseInt accepts them. */
  lemma ExampleLeadingZeroCounters()
    ensures ParseInt("01") == Some(1) && ParseInt("+007") == Some(7) && ParseInt("-0") == Some(0)
  {
    assert DecimalValue("01") == 1 by { assert "01"[..1] == "0"; }
    assert DecimalValue("007") == 7 by { assert "007"[..2] == "00"; assert "00"[..1] == "0"; }
    ParseIntOfNumeral("", "01");
    assert "" + "01" == "01";
    ParseIntOfNumeral("+", "007");
    assert "+" + "007" == "+007";
    ParseIntOfNumeral("-", "0");
    assert "-" + "0" == "-0";
  }

  lemma ExampleEmptyCounterLine(rest: seq<string>, startTimeUs: int)
    ensures ParseDocument([""] + rest, startTimeUs) == Failure(ParserException("Expected numeric counter: "))
  {
    assert ([""] + rest)[0] == "";
    assert CounterMessage + "" == "Expected numeric counter: ";
    DocumentCounterRejected([""] + rest, startTimeUs);
  }

  /** A counter on the last line: the missing timing line is null, and the parse fails with a NullPointerException. */
  lemma DocumentEndsAfterCounter(lines: seq<string>, startTimeUs: int)
    requires |lines| == 1 && ParseInt(lines[0]).Some?
    ensures ParseDocument(lines, startTimeUs) == Failure(NullPointerException)
  {
    TimingLineMissing(lines, 0);
  }

  lemma ExampleEndsAfterCounter(startTimeUs: int)
    ensures ParseDocument(["1"], startTimeUs) == Failure(NullPointerException)
  {
    ParseIntOfDecimal(1);
    assert DecimalString(1) == "1";
    DocumentEndsAfterCounter(["1"], startTimeUs);
  }

  /** A timing line with no whitespace-arrow-whitespace fails with a ParserException naming it. */
  lemma DocumentTimingRejected(lines: seq<string>, startTimeUs: int)
    requires |lines| >= 2 && ParseInt(lines[0]).Some?
    requires forall k :: !ArrowAt(lines[1], k)
    ensures ParseDocument(lines, startTimeUs) == Failure(ParserException(TimingMessage + lines[1]))
  {
    TimingLineFoundIff(lines[1]);
    TimingLineRejected(lines, 0);
  }

  // ---------------------------------------------------------------------
  // The output lists
  // ---------------------------------------------------------------------

  /** Cue i holds the text of block i. */
  lemma {:induction false} CuesOfIndex(blocks: seq<Block>, i: nat)
    requires i < |blocks|
    ensures CuesOf(blocks)[i] == Cue(blocks[i].text)
    decreases |blocks|
  {
    if i < |blocks| - 1 {
      var init := blocks[..|blocks| - 1];
      CuesOfIndex(init, i);
      assert init[i] == blocks[i];
    }
  }

  /** Times 2i and 2i+1 are the start and end of block i, shifted by startTimeUs. */
  lemma {:induction false} TimesOfIndex(blocks: seq<Block>, startTimeUs: int, i: nat)
    requires i < |blocks|
    ensures TimesOf(blocks, startTimeUs)[2 * i] == startTimeUs + blocks[i].startUs
    ensures TimesOf(blocks, startTimeUs)[2 * i + 1] == startTimeUs + blocks[i].endUs
    decreases |blocks|
  {
    if i < |blocks| - 1 {
      var init := blocks[..|blocks| - 1];
      TimesOfIndex(init, startTimeUs, i);
      assert init[i] == blocks[i];
    }
  }

  /** The lists of a successful parse, entry by entry, in block order. */
  lemma DocumentLists(lines: seq<string>, startTimeUs: int, blocks: seq<Block>, i: nat)
    requires ParseBlocks(lines, 0) == Success(blocks) && i < |blocks|
    ensures ParseDocument(lines, startTimeUs).Success?
    ensures ParseDocument(lines, startTimeUs).value.cues[i] == Cue(blocks[i].text)
    ensures ParseDocument(lines, startTimeUs).value.cueTimesUs[2 * i] == startTimeUs + blocks[i].startUs
    ensures ParseDocument(lines, startTimeUs).value.cueTimesUs[2 * i + 1] == startTimeUs + blocks[i].endUs
  {
    CuesOfIndex(blocks, i);
    TimesOfIndex(blocks, startTimeUs, i);
  }

  /** Where the outer loop's next turn starts: after the block read at p, or at p when no block is read there. */
  function NextTurn(lines: seq<string>, p: nat): (q: nat)
    requires p <= |lines|
    ensures p <= q <= |lines|
  {
    match ParseBlock(lines, p)
    case Parsed(_, next) => next
    case _ => p
  }

  /**
   * The line at which the outer loop, started at pos, begins its turn i:
   * pos for the first turn, and each later turn where the one before it
   * stopped reading.
   */
  function BlockStart(lines: seq<string>, pos: nat, i: nat): (p: nat)
    requires pos <= |lines|
    ensures pos <= p <= |lines|
  {
    if i == 0 then pos else NextTurn(lines, BlockStart(lines, pos, i - 1))
  }

  /** A scan that finds a block reads it in its first turn and finds the rest from where that turn stopped. */
  lemma ScanFirstTurn(lines: seq<string>, pos: nat)
    requires pos <= |lines| && ParseBlocks(lines, pos).Success? && ParseBlocks(lines, pos).value != []
    ensures ParseBlock(lines, pos).Parsed? && ParseBlocks(lines, ParseBlock(lines, pos).next).Success?
    ensures ParseBlocks(lines, pos).value
         == [ParseBlock(lines, pos).block] + ParseBlocks(lines, ParseBlock(lines, pos).next).value
  {
  }

  /** From the start of turn i, the scan finds exactly the blocks from the i-th on. */
  lemma {:induction false} ScanFromTurn(lines: seq<string>, pos: nat, i: nat)
    requires pos <= |lines| && ParseBlocks(lines, pos).Success? && i <= |ParseBlocks(lines, pos).value|
    ensures ParseBlocks(lines, BlockStart(lines, pos, i)).Success?
    ensures ParseBlocks(lines, BlockStart(lines, pos, i)).value == ParseBlocks(lines, pos).value[i..]
  {
    if i > 0 {
      ScanFromTurn(lines, pos, i - 1);
      var p := BlockStart(lines, pos, i - 1);
      ScanFirstTurn(lines, p);
      assert BlockStart(lines, pos, i) == ParseBlock(lines, p).next;
      assert ParseBlocks(lines, pos).value[i..] == ParseBlocks(lines, pos).value[i - 1..][1..];
    }
  }

  /** Block i of the scan from pos is the block that the outer loop's turn i reads, from line BlockStart(lines, pos, i). */
  lemma BlockSource(lines: seq<string>, pos: nat, i: nat)
    requires pos <= |lines| && ParseBlocks(lines, pos).Success? && i < |ParseBlocks(lines, pos).value|
    ensures BlockStart(lines, pos, i) < |lines| && ParseBlock(lines, BlockStart(lines, pos, i)).Parsed?
    ensures ParseBlock(lines, BlockStart(lines, pos, i)).block == ParseBlocks(lines, pos).value[i]
  {
    ScanFromTurn(lines, pos, i);
    ScanFirstTurn(lines, BlockStart(lines, pos, i));
  }

  /**
   * Turn i + 1 starts on the line where turn i stopped reading, at least
   * two lines further on, so the blocks are read in input order.
   */
  lemma BlockStartsIncrease(lines: seq<string>, pos: nat, i: nat)
    requires pos <= |lines| && ParseBlocks(lines, pos).Success? && i + 1 < |ParseBlocks(lines, pos).value|
    ensures ParseBlock(lines, BlockStart(lines, pos, i)).Parsed?
    ensures BlockStart(lines, pos, i + 1) == ParseBlock(lines, BlockStart(lines, pos, i)).next
    ensures BlockStart(lines, pos, i) + 2 <= BlockStart(lines, pos, i + 1)
  {
    BlockSource(lines, pos, i);
  }

  /**
   * Times 2i and 2i+1 of a successful parse are startTimeUs plus the values
   * of the two tokens on the timing line of the outer loop's turn i, which
   * starts at line p = BlockStart(lines, 0, i); cue i holds that turn's text.
   */
  lemma StoredTimes(lines: seq<string>, startTimeUs: int, i: nat) returns (p: nat)
    requires ParseDocument(lines, startTimeUs).Success?
    requires i < |ParseDocument(lines, startTimeUs).value.cues|
    ensures p == BlockStart(lines, 0, i)
    ensures p + 1 < |lines| && FindTimingLine(lines[p + 1]).Some?
    ensures ParseTimestampUs(FindTimingLine(lines[p + 1]).value.0).Some?
    ensures ParseTimestampUs(FindTimingLine(lines[p + 1]).value.1).Some?
    ensures ParseDocument(lines, startTimeUs).value.cueTimesUs[2 * i]
         == startTimeUs + ParseTimestampUs(FindTimingLine(lines[p + 1]).value.0).value
    ensures ParseDocument(lines, startTimeUs).value.cueTimesUs[2 * i + 1]
         == startTimeUs + ParseTimestampUs(FindTimingLine(lines[p + 1]).value.1).value
    ensures ParseBlock(lines, p).Parsed?
    ensures ParseDocument(lines, startTimeUs).value.cues[i] == Cue(ParseBlock(lines, p).block.text)
  {
    var blocks := ParseBlocks(lines, 0).value;
    p := BlockStart(lines, 0, i);
    BlockSource(lines, 0, i);
    ParsedBlockOrigin(lines, p);
    DocumentLists(lines, startTimeUs, blocks, i);
  }

  /** A parsed block is made of the two timestamp tokens of its timing line and its text lines. */
  lemma ParsedBlockOrigin(lines: seq<string>, pos: nat)
    requires pos <= |lines| && ParseBlock(lines, pos).Parsed?
    ensures var b, tokens := ParseBlock(lines, pos).block, FindTimingLine(lines[pos + 1]).value;
            && ParseTimestampUs(tokens.0) == Some(b.startUs)
            && ParseTimestampUs(tokens.1) == Some(b.endUs)
            && b.text == CueText(lines[pos + 2..TextEnd(lines, pos + 2)])
  {
  }

  /** Every block takes at least two lines, so a document of n lines has at most n / 2 cues. */
  lemma {:induction false} BlocksFitInLines(lines: seq<string>, pos: nat)
    requires pos <= |lines| && ParseBlocks(lines, pos).Success?
    ensures pos + 2 * |ParseBlocks(lines, pos).value| <= |lines|
    decreases |lines| - pos
  {
    match ParseBlock(lines, pos)
    case EndOfInput =>
    case Parsed(b, next) =>
      BlocksFitInLines(lines, next);
  }

  lemma CuesFitInLines(lines: seq<string>, startTimeUs: int)
    requires ParseDocument(lines, startTimeUs).Success?
    ensures 2 * |ParseDocument(lines, startTimeUs).value.cues| <= |lines|
  {
    BlocksFitInLines(lines, 0);
  }

  /** Every block time is a whole number of milliseconds, at or after zero. */
  lemma {:induction false} BlockTimesAreWholeMilliseconds(lines: seq<string>, pos: nat)
    requires pos <= |lines| && ParseBlocks(lines, pos).Success?
    ensures forall b :: b in ParseBlocks(lines, pos).value ==> WholeMilliseconds(b)
    decreases |lines| - pos
  {
    match ParseBlock(lines, pos)
    case EndOfInput =>
    case Parsed(b, next) =>
      ParsedBlockTimes(lines, pos);
      BlockTimesAreWholeMilliseconds(lines, next);
      var rest := ParseBlocks(lines, next).value;
      assert ParseBlocks(lines, pos).value == [b] + rest;
  }

  /** The times of one parsed block are whole milliseconds. */
  lemma ParsedBlockTimes(lines: seq<string>, pos: nat)
    requires pos <= |lines| && ParseBlock(lines, pos).Parsed?
    ensures WholeMilliseconds(ParseBlock(lines, pos).block)
  {
    ParsedBlockOrigin(lines, pos);
  }

  predicate WholeMilliseconds(b: Block) {
    b.startUs >= 0 && b.startUs % 1000 == 0 && b.endUs >= 0 && b.endUs % 1000 == 0
  }

  /** t lies a non-negative whole number of milliseconds after startTimeUs. */
  predicate WholeMillisecondsAfter(t: int, startTimeUs: int) {
    t >= startTimeUs && (t - startTimeUs) % 1000 == 0
  }

  lemma TimesAfterStart(blocks: seq<Block>, startTimeUs: int, i: nat)
    requires forall b :: b in blocks ==> WholeMilliseconds(b)
    requires i < |TimesOf(blocks, startTimeUs)|
    ensures WholeMillisecondsAfter(TimesOf(blocks, startTimeUs)[i], startTimeUs)
  {
    var j := i / 2;
    TimesOfIndex(blocks, startTimeUs, j);
    assert blocks[j] in blocks;
    var t := TimesOf(blocks, startTimeUs)[i];
    if i == 2 * j {
      assert t - startTimeUs == blocks[j].startUs;
    } else {
      assert i == 2 * j + 1;
      assert t - startTimeUs == blocks[j].endUs;
    }
  }

  /** Every stored time is startTimeUs plus a non-negative whole number of milliseconds. */
  lemma DocumentTimesAfterStart(lines: seq<string>, startTimeUs: int, i: nat)
    requires ParseDocument(lines, startTimeUs).Success?
    requires i < |ParseDocument(lines, startTimeUs).value.cueTimesUs|
    ensures WholeMillisecondsAfter(ParseDocument(lines, startTimeUs).value.cueTimesUs[i], startTimeUs)
  {
    var blocks := ParseBlocks(lines, 0).value;
    var times := ParseDocument(lines, startTimeUs).value.cueTimesUs;
    assert times == TimesOf(blocks, startTimeUs);
    BlockTimesAreWholeMilliseconds(lines, 0);
    TimesAfterStart(blocks, startTimeUs, i);
    assert times[i] == TimesOf(blocks, startTimeUs)[i];
  }

  /** Changing startTimeUs shifts every time by the difference and changes nothing else. */
  lemma {:induction false} TimesOfShift(blocks: seq<Block>, t1: int, t2: int)
    ensures |TimesOf(blocks, t2)| == |TimesOf(blocks, t1)|
    ensures forall i :: 0 <= i < |TimesOf(blocks, t1)| ==> TimesOf(blocks, t2)[i] == TimesOf(blocks, t1)[i] + (t2 - t1)
    decreases |blocks|
  {
    if blocks != [] {
      TimesOfShift(blocks[..|blocks| - 1], t1, t2);
    }
  }

  lemma OffsetShiftsTimes(lines: seq<string>, t1: int, t2: int)
    ensures ParseDocument(lines, t1).Failure? ==> ParseDocument(lines, t2) == ParseDocument(lines, t1)
    ensures ParseDocument(lines, t1).Success? ==>
              && ParseDocument(lines, t2).Success?
              && ParseDocument(lines, t2).value.cues == ParseDocument(lines, t1).value.cues
              && |ParseDocument(lines, t2).value.cueTimesUs| == |ParseDocument(lines, t1).value.cueTimesUs|
              && forall i :: 0 <= i < |ParseDocument(lines, t1).value.cueTimesUs| ==>
                   ParseDocument(lines, t2).value.cueTimesUs[i] == ParseDocument(lines, t1).value.cueTimesUs[i] + (t2 - t1)
  {
    if ParseBlocks(lines, 0).Success? {
      TimesOfShift(ParseBlocks(lines, 0).value, t1, t2);
    }
  }

  // ---------------------------------------------------------------------
  // Cue text
  // ---------------------------------------------------------------------

  /** Each line trimmed as String.trim does. */
  function TrimEach(lines: seq<string>): (r: seq<string>)
    ensures |r| == |lines|
    ensures forall i :: 0 <= i < |lines| ==> r[i] == Trim(lines[i])
  {
    if lines == [] then [] else TrimEach(lines[..|lines| - 1]) + [Trim(lines[|lines| - 1])]
  }

  /** The parts from the first non-empty one on. */
  function DropLeadingEmpty(parts: seq<string>): (r: seq<string>)
    ensures r != [] ==> r[0] != ""
    ensures |r| <= |parts| && r == parts[|parts| - |r|..]
  {
    if parts == [] then [] else if parts[0] == "" then DropLeadingEmpty(parts[1..]) else parts
  }

  /** The parts with "<br>" between each two. */
  function JoinLines(parts: seq<string>): string {
    if parts == [] then ""
    else if |parts| == 1 then parts[0]
    else JoinLines(parts[..|parts| - 1]) + LineBreak + parts[|parts| - 1]
  }

  lemma {:induction false} DropLeadingEmptySnoc(parts: seq<string>, x: string)
    ensures DropLeadingEmpty(parts + [x])
         == if DropLeadingEmpty(parts) == [] then (if x == "" then [] else [x]) else DropLeadingEmpty(parts) + [x]
    decreases |parts|
  {
    if parts != [] {
      assert (parts + [x])[1..] == parts[1..] + [x];
      if parts[0] == "" {
        DropLeadingEmptySnoc(parts[1..], x);
      }
    } else {
      assert [] + [x] == [x];
      assert [x][1..] == [];
    }
  }

  lemma {:induction false} JoinLinesNonEmpty(parts: seq<string>)
    requires parts != [] && parts[0] != ""
    ensures JoinLines(parts) != ""
    decreases |parts|
  {
    if |parts| > 1 {
      JoinLinesNonEmpty(parts[..|parts| - 1]);
    }
  }

  lemma JoinLinesSnoc(parts: seq<string>, x: string)
    requires parts != []
    ensures JoinLines(parts + [x]) == JoinLines(parts) + LineBreak + x
  {
    assert (parts + [x])[..|parts|] == parts;
  }

  /**
   * The text of a block is its lines, trimmed, with leading lines that
   * trim to nothing dropped (the builder is still empty then, so no "<br>"
   * is written), joined by "<br>".
   */
  lemma {:induction false} CueTextIsJoin(lines: seq<string>)
    ensures CueText(lines) == JoinLines(DropLeadingEmpty(TrimEach(lines)))
    decreases |lines|
  {
    if lines != [] {
      var init, last := lines[..|lines| - 1], lines[|lines| - 1];
      CueTextIsJoin(init);
      var d := DropLeadingEmpty(TrimEach(init));
      assert TrimEach(lines) == TrimEach(init) + [Trim(last)];
      DropLeadingEmptySnoc(TrimEach(init), Trim(last));
      if d == [] {
        assert CueText(lines) == Trim(last);
      } else {
        JoinLinesNonEmpty(d);
        JoinLinesSnoc(d, Trim(last));
      }
    }
  }

  lemma ExampleCueText()
    ensures CueText(["Hello", "world"]) == "Hello<br>world"
  {
    assert SkipBlank("Hello", 0) == 0 && DropBlankEnd("Hello", 0, 5) == 5;
    assert SkipBlank("world", 0) == 0 && DropBlankEnd("world", 0, 5) == 5;
    assert Trim("Hello") == "Hello" && Trim("world") == "world";
    assert ["Hello", "world"][..1] == ["Hello"];
    assert ["Hello"][..0] == [];
  }

  /** A timing line followed at once by an empty line or by the end of input gives a cue with empty text. */
  lemma BlockWithoutText(lines: seq<string>, pos: nat)
    requires pos + 1 < |lines| && ParseInt(lines[pos]).Some? && FindTimingLine(lines[pos + 1]).Some?
    requires ParseTimestampUs(FindTimingLine(lines[pos + 1]).value.0).Some?
    requires ParseTimestampUs(FindTimingLine(lines[pos + 1]).value.1).Some?
    requires pos + 2 == |lines| || lines[pos + 2] == ""
    ensures ParseBlock(lines, pos).Parsed? && ParseBlock(lines, pos).block.text == ""
  {
    assert TextEnd(lines, pos + 2) == pos + 2;
    assert lines[pos + 2..pos + 2] == [];
  }

  // ---------------------------------------------------------------------
  // Reading back a well-formed document
  // ---------------------------------------------------------------------

  /** One block as a SubRip writer lays it out: counter, timing line, text lines, blank line. */
  datatype SrtEntry = SrtEntry(counter: nat, start: TimestampGroups, end: TimestampGroups, text: seq<string>)

  /** A timestamp with all four groups, each within Long.parseLong's range. */
  predicate FullTimestamp(g: TimestampGroups) {
    && WellFormedGroups(g) && g.hours.Some?
    && DecimalValue(g.hours.value) <= LongMax && DecimalValue(g.minutes) <= LongMax
    && DecimalValue(g.seconds) <= LongMax && DecimalValue(g.millis) <= LongMax
  }

  function TimestampUsOfGroups(g: TimestampGroups): nat
    requires FullTimestamp(g)
  {
    TimestampUsOf(DecimalValue(g.hours.value), DecimalValue(g.minutes), DecimalValue(g.seconds), DecimalValue(g.millis))
  }

  /** A counter Integer.parseInt accepts, two full timestamps, and text lines none of which is empty. */
  predicate ValidEntry(e: SrtEntry) {
    && e.counter <= IntMax
    && FullTimestamp(e.start) && FullTimestamp(e.end)
    && forall i :: 0 <= i < |e.text| ==> e.text[i] != ""
  }

  function TimingLine(e: SrtEntry): string {
    RenderTimestamp(e.start) + " --> " + RenderTimestamp(e.end)
  }

  function EntryLines(e: SrtEntry): seq<string> {
    [DecimalString(e.counter), TimingLine(e)] + e.text + [""]
  }

  function SrtLines(entries: seq<SrtEntry>): seq<string> {
    if entries == [] then [] else EntryLines(entries[0]) + SrtLines(entries[1..])
  }

  /** The block the parser should make of an entry. */
  function EntryBlock(e: SrtEntry): Block
    requires ValidEntry(e)
  {
    Block(TimestampUsOfGroups(e.start), TimestampUsOfGroups(e.end), CueText(e.text))
  }

  function EntryBlocks(entries: seq<SrtEntry>): (r: seq<Block>)
    requires forall i :: 0 <= i < |entries| ==> ValidEntry(entries[i])
    ensures |r| == |entries|
  {
    if entries == [] then [] else [EntryBlock(entries[0])] + EntryBlocks(entries[1..])
  }

  /** Where the lines of an entry sit once it is placed after pre. */
  lemma EntryLinesAt(pre: seq<string>, e: SrtEntry, post: seq<string>)
    ensures var lines, p, n := pre + EntryLines(e) + post, |pre|, |e.text|;
            && |lines| == p + n + 3 + |post|
            && lines[p] == DecimalString(e.counter)
            && lines[p + 1] == TimingLine(e)
            && lines[p + 2..p + 2 + n] == e.text
            && lines[p + 2 + n] == ""
  {
    var lines, p, n := pre + EntryLines(e) + post, |pre|, |e.text|;
    assert lines[p..p + n + 3] == EntryLines(e);
    assert EntryLines(e)[2..2 + n] == e.text;
  }

  /** The text of an entry runs to its blank line. */
  lemma EntryTextEnd(lines: seq<string>, p: nat, text: seq<string>)
    requires p + 2 + |text| < |lines|
    requires lines[p + 2..p + 2 + |text|] == text && lines[p + 2 + |text|] == ""
    requires forall i :: 0 <= i < |text| ==> text[i] != ""
    ensures TextEnd(lines, p + 2) == p + 2 + |text|
  {
    forall q | p + 2 <= q < p + 2 + |text|
      ensures lines[q] != ""
    {
      assert lines[q] == text[q - p - 2];
    }
    TextEndIs(lines, p + 2, p + 2 + |text|);
  }

  /** The counter and timing lines of a valid entry pass every check. */
  lemma EntryHeader(e: SrtEntry)
    requires ValidEntry(e)
    ensures ParseInt(DecimalString(e.counter)).Some?
    ensures FindTimingLine(TimingLine(e)) == Some((RenderTimestamp(e.start), RenderTimestamp(e.end)))
    ensures ParseTimestampUs(RenderTimestamp(e.start)) == Some(TimestampUsOfGroups(e.start))
    ensures ParseTimestampUs(RenderTimestamp(e.end)) == Some(TimestampUsOfGroups(e.end))
  {
    ParseIntOfDecimal(e.counter);
    RenderedTimestampChars(e.start);
    RenderedTimestampChars(e.end);
    TimingLineOfTokens(RenderTimestamp(e.start), RenderTimestamp(e.end));
    TimestampValue(e.start);
    TimestampValue(e.end);
  }

  /** A block whose checks pass and whose text lines run up to an empty line at end. */
  lemma BlockBeforeEmptyLine(lines: seq<string>, p: nat, left: string, right: string, end: nat, b: Block)
    requires p + 2 <= end < |lines|
    requires ParseInt(lines[p]).Some? && FindTimingLine(lines[p + 1]) == Some((left, right))
    requires ParseTimestampUs(left) == Some(b.startUs) && ParseTimestampUs(right) == Some(b.endUs)
    requires TextEnd(lines, p + 2) == end && b.text == CueText(lines[p + 2..end])
    ensures ParseBlock(lines, p) == Parsed(b, end + 1)
  {
    BlockRead(lines, p, left, right, end);
  }

  /** The lines of a valid entry, placed at p with its text running to the empty line at end, are read as its block. */
  lemma BlockOfEntryAt(lines: seq<string>, p: nat, e: SrtEntry, end: nat)
    requires ValidEntry(e)
    requires p + 2 <= end < |lines|
    requires lines[p] == DecimalString(e.counter) && lines[p + 1] == TimingLine(e)
    requires TextEnd(lines, p + 2) == end && lines[p + 2..end] == e.text
    ensures ParseBlock(lines, p) == Parsed(EntryBlock(e), end + 1)
  {
    EntryHeader(e);
    BlockBeforeEmptyLine(lines, p, RenderTimestamp(e.start), RenderTimestamp(e.end), end, EntryBlock(e));
  }

  /** A valid entry, wherever it is placed, is read as its block, and the scan resumes after its blank line. */
  lemma EntryParses(pre: seq<string>, e: SrtEntry, post: seq<string>)
    requires ValidEntry(e)
    ensures ParseBlock(pre + EntryLines(e) + post, |pre|) == Parsed(EntryBlock(e), |pre + EntryLines(e)|)
  {
    var lines, p := pre + EntryLines(e) + post, |pre|;
    EntryLinesAt(pre, e, post);
    EntryTextEnd(lines, p, e.text);
    BlockOfEntryAt(lines, p, e, p + 2 + |e.text|);
  }

  /** A run of valid entries after any prefix is read as their blocks, in order. */
  lemma {:induction false} EntriesParse(pre: seq<string>, entries: seq<SrtEntry>)
    requires forall i :: 0 <= i < |entries| ==> ValidEntry(entries[i])
    ensures ParseBlocks(pre + SrtLines(entries), |pre|) == Success(EntryBlocks(entries))
    decreases |entries|
  {
    var lines := pre + SrtLines(entries);
    if entries == [] {
      assert lines == pre;
    } else {
      var e, more := entries[0], entries[1..];
      var pre' := pre + EntryLines(e);
      assert lines == pre + EntryLines(e) + SrtLines(more);
      EntryParses(pre, e, SrtLines(more));
      assert lines == pre' + SrtLines(more);
      EntriesParse(pre', more);
      assert EntryBlocks(entries) == [EntryBlock(e)] + EntryBlocks(more);
    }
  }

  /**
   * A document written as valid entries is read back: one cue per entry
   * holding its joined text, and the entry's two times, shifted by
   * startTimeUs, at 2i and 2i+1.
   */
  lemma DocumentRoundTrip(entries: seq<SrtEntry>, startTimeUs: int)
    requires forall i :: 0 <= i < |entries| ==> ValidEntry(entries[i])
    ensures ParseDocument(SrtLines(entries), startTimeUs)
         == Success(SubripSubtitle(startTimeUs, CuesOf(EntryBlocks(entries)), TimesOf(EntryBlocks(entries), startTimeUs)))
  {
    EntriesParse([], entries);
    assert [] + SrtLines(entries) == SrtLines(entries);
  }
}
