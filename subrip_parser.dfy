/**
 * The SubRip parser: a line-driven scanner that reads, block after block,
 * a numeric counter line, a timing line "<start> --> <end>" and text lines
 * up to an empty line or the end of input, and collects one cue and two
 * microsecond times per block.
 *
 * The input is the document already decoded and split into lines (without
 * their terminators). The scanner is specified by ParseDocument, a function
 * over the lines not yet read; the class Parser keeps the reused text
 * builder as a field and its method Parse runs the scanner's loops, proved
 * to compute ParseDocument.
 */
module SubripParser {
  import opened JavaLang
  import opened SubripPatterns

  /** A cue; its payload is the accumulated markup that Html.fromHtml is given. */
  datatype Cue = Cue(markup: string)

  /** The parse result: the offset, the cues, and two times per cue (start, end). */
  datatype SubripSubtitle = SubripSubtitle(startTimeUs: int, cues: seq<Cue>, cueTimesUs: seq<int>)

  /** The exceptions that leave parse. */
  datatype ParseError =
    | ParserException(message: string)
    | NumberFormatException(input: string)
    | NullPointerException

  datatype Result<+T> = Success(value: T) | Failure(error: ParseError)

  const CounterMessage: string := "Expected numeric counter: "
  const TimingMessage: string := "Expected timing line: "
  const LineBreak: string := "<br>"

  // ---------------------------------------------------------------------
  // parseTimestampUs
  // ---------------------------------------------------------------------

  /** Long.parseLong on a capture group; a group that did not participate is null and throws. */
  function ParseGroup(g: Option<string>): Option<int> {
    match g
    case None => None
    case Some(digits) => ParseLong(digits)
  }

  /**
   * parseTimestampUs: a full match of SUBRIP_TIMESTAMP, then each group
   * through Long.parseLong and the sum in milliseconds, times 1000. The
   * fraction group is a plain integer count of milliseconds. None stands
   * for the NumberFormatException it throws.
   */
  function ParseTimestampUs(s: string): (r: Option<int>)
    ensures r.Some? ==> r.value >= 0 && r.value % 1000 == 0
    ensures r.Some? ==> MatchTimestamp(s).Some? && MatchTimestamp(s).value.hours.Some?
  {
    match MatchTimestamp(s)
    case None => None
    case Some(g) =>
      var h, m, sec, f := ParseGroup(g.hours), ParseLong(g.minutes), ParseLong(g.seconds), ParseLong(g.millis);
      if h.None? || m.None? || sec.None? || f.None? then None
      else
        var timestampMs := h.value * 60 * 60 * 1000 + m.value * 60 * 1000 + sec.value * 1000 + f.value;
        ScaledToMicroseconds(timestampMs);
        Some(timestampMs * 1000)
  }

  /** A non-negative count of milliseconds, scaled to microseconds, stays non-negative and whole. */
  lemma ScaledToMicroseconds(ms: int)
    requires ms >= 0
    ensures ms * 1000 >= 0 && (ms * 1000) % 1000 == 0
  {
  }

  // ---------------------------------------------------------------------
  // Text accumulation
  // ---------------------------------------------------------------------

  /** One text line added to the builder: "<br>" first only when the builder is not empty, then the trimmed line. */
  function AppendLine(text: string, line: string): string {
    (if |text| > 0 then text + LineBreak else text) + Trim(line)
  }

  /** The builder after the text lines of a block are appended, in order, to an empty builder. */
  function CueText(lines: seq<string>): string {
    if lines == [] then "" else AppendLine(CueText(lines[..|lines| - 1]), lines[|lines| - 1])
  }

  /** The first empty line at or after i, else the end of input. */
  function TextEnd(lines: seq<string>, i: nat): (e: nat)
    requires i <= |lines|
    ensures i <= e <= |lines|
    ensures e < |lines| ==> lines[e] == ""
    decreases |lines| - i
  {
    if i == |lines| || lines[i] == "" then i else TextEnd(lines, i + 1)
  }

  /** No line before TextEnd is empty. */
  lemma TextEndSkipsNonEmpty(lines: seq<string>, i: nat, p: nat)
    requires i <= |lines| && i <= p < TextEnd(lines, i)
    ensures lines[p] != ""
    decreases |lines| - i
  {
    if i < p {
      TextEndSkipsNonEmpty(lines, i + 1, p);
    }
  }

  lemma TextEndIs(lines: seq<string>, i: nat, e: nat)
    requires i <= e <= |lines|
    requires forall p :: i <= p < e ==> lines[p] != ""
    requires e < |lines| ==> lines[e] == ""
    ensures TextEnd(lines, i) == e
    decreases |lines| - i
  {
    if i < e {
      TextEndIs(lines, i + 1, e);
    }
  }

  /** One more line read extends the text by AppendLine. */
  lemma CueTextExtends(lines: seq<string>, first: nat, end: nat)
    requires first <= end < |lines|
    ensures CueText(lines[first..end + 1]) == AppendLine(CueText(lines[first..end]), lines[end])
  {
    ghost var read := lines[first..end + 1];
    assert read[..|read| - 1] == lines[first..end];
  }

  // ---------------------------------------------------------------------
  // The block scanner
  // ---------------------------------------------------------------------

  /** What one block yields before the offset is applied. */
  datatype Block = Block(startUs: int, endUs: int, text: string)

  /** The outcome of one iteration of the scanner's outer loop; next is the first line it did not read. */
  datatype Step = EndOfInput | Failed(error: ParseError) | Parsed(block: Block, next: nat)

  /**
   * One iteration from the line at pos: the counter must pass
   * Integer.parseInt; a missing timing line is read as null and
   * dereferenced; a timing line must contain an arrow, and both its tokens
   * must be timestamps; the text runs to the first empty line, which is
   * consumed too.
   */
  function ParseBlock(lines: seq<string>, pos: nat): (r: Step)
    requires pos <= |lines|
    ensures r.EndOfInput? <==> pos == |lines|
    ensures r.Parsed? ==> pos + 2 <= r.next <= |lines|
    ensures r.Parsed? ==> ParseInt(lines[pos]).Some? && FindTimingLine(lines[pos + 1]).Some?
  {
    if pos == |lines| then EndOfInput
    else if ParseInt(lines[pos]).None? then Failed(ParserException(CounterMessage + lines[pos]))
    else if pos + 1 == |lines| then Failed(NullPointerException)
    else
      match FindTimingLine(lines[pos + 1])
      case None => Failed(ParserException(TimingMessage + lines[pos + 1]))
      case Some((left, right)) =>
        match ParseTimestampUs(left)
        case None => Failed(NumberFormatException(left))
        case Some(startUs) =>
          match ParseTimestampUs(right)
          case None => Failed(NumberFormatException(right))
          case Some(endUs) =>
            var e := TextEnd(lines, pos + 2);
            Parsed(Block(startUs, endUs, CueText(lines[pos + 2..e])), if e < |lines| then e + 1 else e)
  }

  /** The blocks found before the result r of the remaining input. */
  function Prepend(blocks: seq<Block>, r: Result<seq<Block>>): Result<seq<Block>> {
    match r
    case Success(rest) => Success(blocks + rest)
    case Failure(e) => Failure(e)
  }

  /** All blocks from the line at pos on, or the first error met. */
  function ParseBlocks(lines: seq<string>, pos: nat): Result<seq<Block>>
    requires pos <= |lines|
    decreases |lines| - pos
  {
    match ParseBlock(lines, pos)
    case EndOfInput => Success([])
    case Failed(e) => Failure(e)
    case Parsed(b, next) => Prepend([b], ParseBlocks(lines, next))
  }

  /** The cues list: one cue per block, in block order. */
  function CuesOf(blocks: seq<Block>): (cues: seq<Cue>)
    ensures |cues| == |blocks|
  {
    if blocks == [] then []
    else CuesOf(blocks[..|blocks| - 1]) + [Cue(blocks[|blocks| - 1].text)]
  }

  /** The cueTimesUs list: each block's start and end, shifted by startTimeUs. */
  function TimesOf(blocks: seq<Block>, startTimeUs: int): (times: seq<int>)
    ensures |times| == 2 * |blocks|
  {
    if blocks == [] then []
    else
      var last := blocks[|blocks| - 1];
      TimesOf(blocks[..|blocks| - 1], startTimeUs) + [startTimeUs + last.startUs, startTimeUs + last.endUs]
  }

  /** parse(inputStream, inputEncoding, startTimeUs), on the decoded lines of the stream. */
  function ParseDocument(lines: seq<string>, startTimeUs: int): (r: Result<SubripSubtitle>)
    ensures r.Success? ==> r.value.startTimeUs == startTimeUs
    ensures r.Success? ==> |r.value.cueTimesUs| == 2 * |r.value.cues|
  {
    match ParseBlocks(lines, 0)
    case Success(blocks) => Success(SubripSubtitle(startTimeUs, CuesOf(blocks), TimesOf(blocks, startTimeUs)))
    case Failure(e) => Failure(e)
  }

  /** The text builder once parsing stops: the text of the last block that reached its text lines. */
  function BuilderAfter(lines: seq<string>, pos: nat, builder: string): string
    requires pos <= |lines|
    decreases |lines| - pos
  {
    match ParseBlock(lines, pos)
    case Parsed(b, next) => BuilderAfter(lines, next, b.text)
    case _ => builder
  }

  // ---------------------------------------------------------------------
  // One step of the scanner, case by case
  // ---------------------------------------------------------------------

  /** A counter line that Integer.parseInt refuses stops the parse with a ParserException naming it. */
  lemma CounterRejected(lines: seq<string>, pos: nat)
    requires pos < |lines| && ParseInt(lines[pos]).None?
    ensures ParseBlock(lines, pos) == Failed(ParserException(CounterMessage + lines[pos]))
  {
  }

  /** A counter on the last line leaves the timing line null, and matching it throws. */
  lemma TimingLineMissing(lines: seq<string>, pos: nat)
    requires pos + 1 == |lines| && ParseInt(lines[pos]).Some?
    ensures ParseBlock(lines, pos) == Failed(NullPointerException)
  {
  }

  /** A timing line without an arrow stops the parse with a ParserException naming it. */
  lemma TimingLineRejected(lines: seq<string>, pos: nat)
    requires pos + 1 < |lines| && ParseInt(lines[pos]).Some? && FindTimingLine(lines[pos + 1]).None?
    ensures ParseBlock(lines, pos) == Failed(ParserException(TimingMessage + lines[pos + 1]))
  {
  }

  /** A start token that is not a timestamp throws NumberFormatException. */
  lemma StartTimestampRejected(lines: seq<string>, pos: nat, left: string, right: string)
    requires pos + 1 < |lines| && ParseInt(lines[pos]).Some? && FindTimingLine(lines[pos + 1]) == Some((left, right))
    requires ParseTimestampUs(left).None?
    ensures ParseBlock(lines, pos) == Failed(NumberFormatException(left))
  {
  }

  /** An end token that is not a timestamp throws NumberFormatException once the start token has parsed. */
  lemma EndTimestampRejected(lines: seq<string>, pos: nat, left: string, right: string)
    requires pos + 1 < |lines| && ParseInt(lines[pos]).Some? && FindTimingLine(lines[pos + 1]) == Some((left, right))
    requires ParseTimestampUs(left).Some? && ParseTimestampUs(right).None?
    ensures ParseBlock(lines, pos) == Failed(NumberFormatException(right))
  {
  }

  /** A block that passes every check yields its two times and its text, and the scan resumes after the empty line. */
  lemma BlockRead(lines: seq<string>, pos: nat, left: string, right: string, end: nat)
    requires pos + 1 < |lines| && ParseInt(lines[pos]).Some? && FindTimingLine(lines[pos + 1]) == Some((left, right))
    requires ParseTimestampUs(left).Some? && ParseTimestampUs(right).Some?
    requires end == TextEnd(lines, pos + 2)
    ensures ParseBlock(lines, pos)
         == Parsed(Block(ParseTimestampUs(left).value, ParseTimestampUs(right).value, CueText(lines[pos + 2..end])),
                   if end < |lines| then end + 1 else end)
  {
  }

  /** A block that fails ends the whole parse with its error, and leaves the builder as it was. */
  lemma FailedBlockEndsParse(lines: seq<string>, blocks: seq<Block>, pos: nat, builder: string, e: ParseError, startTimeUs: int)
    requires pos <= |lines|
    requires ParseBlocks(lines, 0) == Prepend(blocks, ParseBlocks(lines, pos))
    requires ParseBlock(lines, pos) == Failed(e)
    ensures ParseDocument(lines, startTimeUs) == Failure(e)
    ensures BuilderAfter(lines, pos, builder) == builder
  {
  }

  /** Blocks found earlier stay in front of the ones found later. */
  lemma PrependTwice(blocks: seq<Block>, b: Block, r: Result<seq<Block>>)
    ensures Prepend(blocks, Prepend([b], r)) == Prepend(blocks + [b], r)
  {
    match r
    case Success(more) =>
      assert blocks + ([b] + more) == (blocks + [b]) + more;
    case Failure(_) =>
  }

  /** A block that parses joins the blocks found. */
  lemma ParsedBlockContinues(lines: seq<string>, blocks: seq<Block>, pos: nat, b: Block, next: nat)
    requires pos <= |lines|
    requires ParseBlocks(lines, 0) == Prepend(blocks, ParseBlocks(lines, pos))
    requires ParseBlock(lines, pos) == Parsed(b, next)
    ensures ParseBlocks(lines, 0) == Prepend(blocks + [b], ParseBlocks(lines, next))
  {
    assert ParseBlocks(lines, pos) == Prepend([b], ParseBlocks(lines, next));
    PrependTwice(blocks, b, ParseBlocks(lines, next));
  }

  /** A new block adds one cue and its two shifted times at the end of the lists. */
  lemma ListsOfAppend(blocks: seq<Block>, b: Block, startTimeUs: int)
    ensures CuesOf(blocks + [b]) == CuesOf(blocks) + [Cue(b.text)]
    ensures TimesOf(blocks + [b], startTimeUs) == TimesOf(blocks, startTimeUs) + [startTimeUs + b.startUs, startTimeUs + b.endUs]
  {
    assert (blocks + [b])[..|blocks|] == blocks;
  }

  /** Before any line is read, no block has been found. */
  lemma NothingFoundYet(lines: seq<string>)
    ensures ParseBlocks(lines, 0) == Prepend([], ParseBlocks(lines, 0))
  {
    match ParseBlocks(lines, 0)
    case Success(bs) =>
      assert [] + bs == bs;
    case Failure(_) =>
  }

  /** Once every line is read, the blocks found are the document. */
  lemma DocumentOfBlocks(lines: seq<string>, blocks: seq<Block>, builder: string, startTimeUs: int)
    requires ParseBlocks(lines, 0) == Prepend(blocks, ParseBlocks(lines, |lines|))
    ensures ParseDocument(lines, startTimeUs) == Success(SubripSubtitle(startTimeUs, CuesOf(blocks), TimesOf(blocks, startTimeUs)))
    ensures BuilderAfter(lines, |lines|, builder) == builder
  {
    assert blocks + [] == blocks;
  }

  class Parser {
    /** The StringBuilder reused from block to block. */
    var textBuilder: string

    constructor()
      ensures textBuilder == ""
    {
      textBuilder := "";
    }

    /**
     * The inner loop of parse: clear the builder, then append each line
     * from lines[first] on, trimmed and separated by "<br>", until an empty
     * line or the end of input. It returns the index where it stopped.
     */
    method ReadText(lines: seq<string>, first: nat) returns (end: nat)
      requires first <= |lines|
      modifies this
      ensures end == TextEnd(lines, first)
      ensures textBuilder == CueText(lines[first..end])
    {
      textBuilder := "";
      end := first;
      while end < |lines| && lines[end] != ""
        invariant first <= end <= |lines|
        invariant TextEnd(lines, end) == TextEnd(lines, first)
        invariant textBuilder == CueText(lines[first..end])
        decreases |lines| - end
      {
        if |textBuilder| > 0 {
          textBuilder := textBuilder + LineBreak;
        }
        textBuilder := textBuilder + Trim(lines[end]);
        CueTextExtends(lines, first, end);
        end := end + 1;
      }
    }

    /**
     * One turn of parse's outer loop, from the counter line at lines[pos]:
     * the counter, the timing line, the two timestamps, then the text, and
     * the empty line after it when there is one. The builder is cleared
     * only once both timestamps have parsed.
     */
    method ReadBlock(lines: seq<string>, pos: nat) returns (step: Step)
      requires pos < |lines|
      modifies this
      ensures step == ParseBlock(lines, pos)
      ensures textBuilder == if step.Parsed? then step.block.text else old(textBuilder)
    {
      // The counter line.
      var counter := lines[pos];
      if ParseInt(counter).None? {
        CounterRejected(lines, pos);
        return Failed(ParserException(CounterMessage + counter));
      }

      // The timing line; reading past the end gives null.
      if pos + 1 == |lines| {
        TimingLineMissing(lines, pos);
        return Failed(NullPointerException);
      }
      var timing := lines[pos + 1];
      var found := FindTimingLine(timing);
      if found.None? {
        TimingLineRejected(lines, pos);
        return Failed(ParserException(TimingMessage + timing));
      }
      var (left, right) := found.value;
      var startUs := ParseTimestampUs(left);
      if startUs.None? {
        StartTimestampRejected(lines, pos, left, right);
        return Failed(NumberFormatException(left));
      }
      var endUs := ParseTimestampUs(right);
      if endUs.None? {
        EndTimestampRejected(lines, pos, left, right);
        return Failed(NumberFormatException(right));
      }

      // The text lines, then the empty line that ends them.
      var end := ReadText(lines, pos + 2);
      BlockRead(lines, pos, left, right, end);
      var next := if end < |lines| then end + 1 else end;
      step := Parsed(Block(startUs.value, endUs.value, textBuilder), next);
    }

    /**
     * parse: the outer loop over blocks, with the lists as local sequences
     * and the builder as the field. It returns ParseDocument, whatever the
     * builder held before, and leaves the builder holding the last block's
     * text. Both times of a block are added once the block is read; the
     * lists are dropped when a block fails, so the order is not observable.
     */
    method Parse(lines: seq<string>, startTimeUs: int) returns (r: Result<SubripSubtitle>)
      modifies this
      ensures r == ParseDocument(lines, startTimeUs)
      ensures textBuilder == BuilderAfter(lines, 0, old(textBuilder))
    {
      var cues: seq<Cue> := [];
      var cueTimesUs: seq<int> := [];
      ghost var blocks: seq<Block> := [];
      var pos := 0;
      NothingFoundYet(lines);
      while pos < |lines|
        invariant pos <= |lines|
        invariant ParseBlocks(lines, 0) == Prepend(blocks, ParseBlocks(lines, pos))
        invariant cues == CuesOf(blocks) && cueTimesUs == TimesOf(blocks, startTimeUs)
        invariant BuilderAfter(lines, 0, old(textBuilder)) == BuilderAfter(lines, pos, textBuilder)
        decreases |lines| - pos
      {
        ghost var before := textBuilder;
        var step := ReadBlock(lines, pos);
        if step.Failed? {
          FailedBlockEndsParse(lines, blocks, pos, before, step.error, startTimeUs);
          return Failure(step.error);
        }
        var block := step.block;
        cues := cues + [Cue(block.text)];
        cueTimesUs := cueTimesUs + [startTimeUs + block.startUs, startTimeUs + block.endUs];
        ListsOfAppend(blocks, block, startTimeUs);
        ParsedBlockContinues(lines, blocks, pos, block, step.next);
        blocks := blocks + [block];
        pos := step.next;
      }
      DocumentOfBlocks(lines, blocks, textBuilder, startTimeUs);
      r := Success(SubripSubtitle(startTimeUs, cues, cueTimesUs));
    }
  }
}
