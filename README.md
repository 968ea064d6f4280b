# SubRip parser, modelled in Dafny

This project models ExoPlayer's `SubripParser`, which reads a SubRip (`.srt`) subtitle document. The document is a sequence of blocks. Each block is:

- a numeric counter line;
- a timing line `start --> end`;
- text lines, up to an empty line or the end of input.

The parser turns the document into a `SubripSubtitle`. That result holds the start-time offset, one cue per block, and a list of microsecond times with two entries per block: the block's start and end, each shifted by the offset.

The project has four modules, one per file:

- `JavaLang` (`java_lang.dfy`) covers the Java platform behaviour the parser depends on:
  - `Integer.parseInt` and `Long.parseLong` in radix 10: an optional sign, at least one ASCII digit, and a range check;
  - `String.trim`, which strips every character at or below U+0020;
  - the `java.util.regex` character classes `\d`, `\s`, and the line terminators that `.` refuses to match.
- `SubripPatterns` (`subrip_patterns.dfy`) writes out the two regular expressions as the backtracking engine runs them:
  - `find()` on `(.*)\s+-->\s+(.*)` tries the leftmost start first and backtracks the greedy first group from its longest run;
  - `matches()` on `(?:(\d+):)?(\d+):(\d+),(\d+)` tries the optional hours group present first.

  Lemmas describe the match the engine settles on independently of that search order. A line is recognised exactly when it contains a whitespace-flanked arrow. On a line without line terminators, the split is at the last such arrow; a U+0085, U+2028 or U+2029 inside the line stops `.` and can move the split to an earlier arrow. A matched token is reproduced by its groups, and rendering well-formed groups matches back to them.
- `SubripParser` (`subrip_parser.dfy`) holds the parser itself:
  - `ParseTimestampUs`, a pure function;
  - the block scanner, specified by the functions `ParseBlock`, `ParseBlocks` and `ParseDocument` over the decoded lines;
  - the class `Parser`. Its field `textBuilder` is the reused `StringBuilder`. Its method `Parse` runs the source's two loops and is proved to return `ParseDocument` and to leave the builder holding the last block's text.
- `SubripProperties` (`subrip_properties.dfy`) proves what the parser promises:
  - empty input;
  - the error raised for each kind of bad block;
  - the shape and order of the output lists;
  - the start-time offset;
  - the timestamp arithmetic and what it refuses;
  - the text joining rule;
  - reading back any document written as well-formed entries.

The exceptions that leave `parse` are results of type `Failure(ParserException(message))`, `Failure(NumberFormatException(token))` or `Failure(NullPointerException)`.

In three places the model follows the code rather than the usual description of the format:

- **Hourless timestamps are refused.** A timestamp without an hours part, such as `02:03,004`, matches the timestamp pattern. Its hours group is then `null`, and `Long.parseLong(null)` throws `NumberFormatException`. So such a token is refused; it does not default the hours to 0.
- **An empty counter line is an error.** It is a `ParserException`, not a clean end of the document.
- **A counter line on the last line fails.** The missing timing line is `null`, and matching it throws `NullPointerException`.

## Model

| member | source | states |
|---|---|---|
| JavaLang.ParseInt | library/src/main/java/com/google/android/exoplayer/text/subrip/SubripParser.java:64-68 | an accepted counter lies in the 32-bit range; the empty line is refused (the full acceptance rule is ParseIntOfNumeral) |
| JavaLang.ParseLong | library/src/main/java/com/google/android/exoplayer/text/subrip/SubripParser.java:112-115 | an accepted group lies in the 64-bit range, and a digits-only group is non-negative |
| JavaLang.ParseSigned | library/src/main/java/com/google/android/exoplayer/text/subrip/SubripParser.java:65 | an accepted string is a sign or digit followed by digits only, has at least one digit, is in range, and is negative only after '-' |
| JavaLang.ParseSignedOfNumeral | library/src/main/java/com/google/android/exoplayer/text/subrip/SubripParser.java:65 | an optional sign followed by digits, leading zeros included, is accepted exactly when its signed value lies in the range, and is read as that value |
| JavaLang.ParseIntOfNumeral | library/src/main/java/com/google/android/exoplayer/text/subrip/SubripParser.java:64-68 | a counter line that is an optional sign and digits passes exactly when its value fits in 32 bits |
| JavaLang.ParseIntOfDecimal | library/src/main/java/com/google/android/exoplayer/text/subrip/SubripParser.java:65 | every numeral up to IntMax, with or without '+', is accepted as its value |
| JavaLang.ParseIntOfNegated | library/src/main/java/com/google/android/exoplayer/text/subrip/SubripParser.java:65 | a '-' numeral is accepted down to IntMin and negated |
| JavaLang.ParseLongOutOfRange | library/src/main/java/com/google/android/exoplayer/text/subrip/SubripParser.java:112-115 | a digit group above LongMax is refused |
| JavaLang.ParseLongOfDigits | library/src/main/java/com/google/android/exoplayer/text/subrip/SubripParser.java:112-115 | a digit group up to LongMax is read as its decimal value |
| JavaLang.DecimalRoundTrip | library/src/main/java/com/google/android/exoplayer/text/subrip/SubripParser.java:65 | the decimal value of the numeral written for n is n |
| JavaLang.Trim | library/src/main/java/com/google/android/exoplayer/text/subrip/SubripParser.java:86 | trimming never lengthens a line |
| JavaLang.TrimEnds | library/src/main/java/com/google/android/exoplayer/text/subrip/SubripParser.java:86 | a trimmed line neither starts nor ends with a character up to U+0020; it is empty exactly when the line is all such characters |
| JavaLang.TrimIsSlice | library/src/main/java/com/google/android/exoplayer/text/subrip/SubripParser.java:86 | a trimmed line is a slice of the line, with only blanks cut on either side |
| SubripPatterns.ArrowTail | library/src/main/java/com/google/android/exoplayer/text/subrip/SubripParser.java:44 | the tail `\s+-->\s+(.*)` matches from j exactly when a non-empty whitespace run from j ends at a usable arrow |
| SubripPatterns.FindTimingLine | library/src/main/java/com/google/android/exoplayer/text/subrip/SubripParser.java:72-73 | no contract of its own: find() over the line, trying start positions left to right; pinned down by TimingLineFoundIff and TimingLineSplitsAtLastArrow |
| SubripPatterns.ArrowFound | library/src/main/java/com/google/android/exoplayer/text/subrip/SubripParser.java:72-73 | a line holding a usable arrow anywhere is found |
| SubripPatterns.TimingLineFoundIff | library/src/main/java/com/google/android/exoplayer/text/subrip/SubripParser.java:72-73 | find() succeeds on a line if and only if it holds whitespace, "-->", whitespace somewhere |
| SubripPatterns.TimingLineSplitsAtLastArrow | library/src/main/java/com/google/android/exoplayer/text/subrip/SubripParser.java:44 | on a line without line terminators, group 1 is everything before the whitespace character that precedes the last usable arrow; group 2 is everything after that arrow once its leading whitespace is skipped |
| SubripPatterns.TimingLineOfTokens | library/src/main/java/com/google/android/exoplayer/text/subrip/SubripParser.java:72-75 | the line "start --> end" written from two timestamp tokens gives back both tokens |
| SubripPatterns.MatchMinutesOnward | library/src/main/java/com/google/android/exoplayer/text/subrip/SubripParser.java:46 | no contract of its own: the `(\d+):(\d+),(\d+)` part of the pattern, run to the end of the token; pinned down by MatchMinutesOnwardSplits and MatchMinutesOnwardOf |
| SubripPatterns.MatchMinutesOnwardOf | library/src/main/java/com/google/android/exoplayer/text/subrip/SubripParser.java:46 | the minutes, seconds and fraction numerals, written with their separators after any prefix, are matched back as those three groups |
| SubripPatterns.MatchMinutesOnwardSplits | library/src/main/java/com/google/android/exoplayer/text/subrip/SubripParser.java:46 | the groups of `(\d+):(\d+),(\d+)` are numerals that, with their separators, make up the rest of the token |
| SubripPatterns.MatchTimestamp | library/src/main/java/com/google/android/exoplayer/text/subrip/SubripParser.java:108-109 | no contract of its own: matches() with the optional hours group tried present first; pinned down by MatchTimestampRenders and MatchTimestampOfRender |
| SubripPatterns.MatchTimestampRenders | library/src/main/java/com/google/android/exoplayer/text/subrip/SubripParser.java:108-109 | a full match has numeric groups that reproduce the token exactly |
| SubripPatterns.MatchTimestampOfRender | library/src/main/java/com/google/android/exoplayer/text/subrip/SubripParser.java:108-109 | matches() gives back, group by group, any token written from well-formed groups, with the hours group present or absent |
| SubripPatterns.RenderedTimestampChars | library/src/main/java/com/google/android/exoplayer/text/subrip/SubripParser.java:46 | a token written from well-formed groups holds only digits, ':' and ',' |
| SubripParser.ParseGroup | library/src/main/java/com/google/android/exoplayer/text/subrip/SubripParser.java:112 | no contract of its own: Long.parseLong on a group, with a group that did not participate refused as null; HourlessTimestampRejected and ParseLongOfNumeral give its outcomes |
| SubripParser.ParseTimestampUs | library/src/main/java/com/google/android/exoplayer/text/subrip/SubripParser.java:107-117 | an accepted token fully matched with the hours group present, and its value is a non-negative whole number of milliseconds in microseconds |
| SubripParser.AppendLine | library/src/main/java/com/google/android/exoplayer/text/subrip/SubripParser.java:83-86 | no contract of its own: one append of the inner loop; CueTextExtends and CueTextIsJoin state its effect |
| SubripParser.CueText | library/src/main/java/com/google/android/exoplayer/text/subrip/SubripParser.java:81-87 | no contract of its own: the builder after a block's text lines; CueTextIsJoin gives it as the trimmed lines joined by "<br>" and Parser.ReadText is proved to compute it |
| SubripParser.TextEnd | library/src/main/java/com/google/android/exoplayer/text/subrip/SubripParser.java:82 | the text stops at an empty line or at the end of input |
| SubripParser.TextEndSkipsNonEmpty | library/src/main/java/com/google/android/exoplayer/text/subrip/SubripParser.java:82 | no line before the stop is empty |
| SubripParser.CueTextExtends | library/src/main/java/com/google/android/exoplayer/text/subrip/SubripParser.java:83-86 | one more text line extends the text by "<br>" (only when the text is non-empty) and the trimmed line |
| SubripParser.ParseBlock | library/src/main/java/com/google/android/exoplayer/text/subrip/SubripParser.java:62-90 | a turn ends the input exactly at the last line; a parsed block consumes at least the counter and timing lines, and both passed their checks |
| SubripParser.ParseBlocks | library/src/main/java/com/google/android/exoplayer/text/subrip/SubripParser.java:62-91 | no contract of its own: the outer loop, blocks in order or the first error; pinned down by BlocksFitInLines, BlockSource, BlockStartsIncrease, FailedBlockEndsParse and EntriesParse |
| SubripParser.ParseDocument | library/src/main/java/com/google/android/exoplayer/text/subrip/SubripParser.java:96-99 | a successful parse keeps startTimeUs and has exactly two times per cue |
| SubripParser.CuesOf | library/src/main/java/com/google/android/exoplayer/text/subrip/SubripParser.java:90 | one cue per block |
| SubripParser.TimesOf | library/src/main/java/com/google/android/exoplayer/text/subrip/SubripParser.java:74-75 | two times per block |
| SubripParser.BuilderAfter | library/src/main/java/com/google/android/exoplayer/text/subrip/SubripParser.java:81 | no contract of its own: the textBuilder field once parsing stops; Parser.Parse is proved to leave the field equal to it |
| SubripParser.CounterRejected | library/src/main/java/com/google/android/exoplayer/text/subrip/SubripParser.java:64-68 | a counter line that Integer.parseInt refuses fails with ParserException "Expected numeric counter: " plus the line |
| SubripParser.TimingLineMissing | library/src/main/java/com/google/android/exoplayer/text/subrip/SubripParser.java:71-72 | a counter on the last line fails with NullPointerException |
| SubripParser.TimingLineRejected | library/src/main/java/com/google/android/exoplayer/text/subrip/SubripParser.java:76-77 | a timing line without a match fails with ParserException "Expected timing line: " plus the line |
| SubripParser.StartTimestampRejected | library/src/main/java/com/google/android/exoplayer/text/subrip/SubripParser.java:74 | a bad start token fails with NumberFormatException |
| SubripParser.EndTimestampRejected | library/src/main/java/com/google/android/exoplayer/text/subrip/SubripParser.java:75 | a bad end token, after a good start token, fails with NumberFormatException |
| SubripParser.BlockRead | library/src/main/java/com/google/android/exoplayer/text/subrip/SubripParser.java:71-90 | a block that passes every check yields its two timestamps and its text, and the scan resumes after the empty line |
| SubripParser.FailedBlockEndsParse | library/src/main/java/com/google/android/exoplayer/text/subrip/SubripParser.java:64-78 | a failing block makes the whole parse fail with its error, whatever came before it |
| SubripParser.ParsedBlockContinues | library/src/main/java/com/google/android/exoplayer/text/subrip/SubripParser.java:62-91 | a parsed block joins the blocks already found, in order |
| SubripParser.ListsOfAppend | library/src/main/java/com/google/android/exoplayer/text/subrip/SubripParser.java:74-90 | a new block appends one cue and its two shifted times at the ends of the lists |
| SubripParser.Parser.constructor | library/src/main/java/com/google/android/exoplayer/text/subrip/SubripParser.java:50-52 | the builder starts empty |
| SubripParser.Parser.ReadText | library/src/main/java/com/google/android/exoplayer/text/subrip/SubripParser.java:81-87 | the inner loop clears the builder, stops at the first empty line or end of input, and leaves the builder holding the block's joined text |
| SubripParser.Parser.ReadBlock | library/src/main/java/com/google/android/exoplayer/text/subrip/SubripParser.java:63-90 | one outer-loop turn returns exactly the ParseBlock outcome; the builder changes only when the block parses |
| SubripParser.Parser.Parse | library/src/main/java/com/google/android/exoplayer/text/subrip/SubripParser.java:55-100 | parse returns ParseDocument of the lines, and the builder ends holding the text of the last block that parsed |
| SubripProperties.TimestampValue | library/src/main/java/com/google/android/exoplayer/text/subrip/SubripParser.java:112-116 | h:m:s,f with every group in range is ((h*3600 + m*60 + s)*1000 + f)*1000 microseconds |
| SubripProperties.TimestampOfGroupValues | library/src/main/java/com/google/android/exoplayer/text/subrip/SubripParser.java:112-116 | once the token matches, its value is that arithmetic on the four parsed groups |
| SubripProperties.MatchedGroupsNonNegative | library/src/main/java/com/google/android/exoplayer/text/subrip/SubripParser.java:112-115 | the groups of a matched token are digit strings, so Long.parseLong reads none of them as negative |
| SubripProperties.TimestampGroupOutOfRange | library/src/main/java/com/google/android/exoplayer/text/subrip/SubripParser.java:112-115 | a group too large for Long.parseLong makes the token fail |
| SubripProperties.ParseLongOfNumeral | library/src/main/java/com/google/android/exoplayer/text/subrip/SubripParser.java:112-115 | a numeral group parses to its value exactly when it is within LongMax, and fails otherwise |
| SubripProperties.HourlessTimestampRejected | library/src/main/java/com/google/android/exoplayer/text/subrip/SubripParser.java:112 | a token that matches without the hours group is refused |
| SubripProperties.TimestampIsBareToken | library/src/main/java/com/google/android/exoplayer/text/subrip/SubripParser.java:108-111 | an accepted token starts and ends with a digit |
| SubripProperties.TimestampWithTrailingSpaceRejected | library/src/main/java/com/google/android/exoplayer/text/subrip/SubripParser.java:108-111 | a token followed by a whitespace character is refused |
| SubripProperties.ExampleTimestamp | library/src/main/java/com/google/android/exoplayer/text/subrip/SubripParser.java:107-117 | "01:02:03,004" is 3,723,004,000 microseconds |
| SubripProperties.ExampleUnscaledFraction | library/src/main/java/com/google/android/exoplayer/text/subrip/SubripParser.java:115 | "00:00:01,5" adds 5 ms for its fraction, not half a second |
| SubripProperties.ExampleHourlessTimestamp | library/src/main/java/com/google/android/exoplayer/text/subrip/SubripParser.java:112 | "02:03,004" is refused |
| SubripProperties.EmptyInput | library/src/main/java/com/google/android/exoplayer/text/subrip/SubripParser.java:62 | no lines give no cues, no times and no error |
| SubripProperties.DocumentCounterRejected | library/src/main/java/com/google/android/exoplayer/text/subrip/SubripParser.java:64-68 | a bad first counter fails the document with a ParserException naming the line |
| SubripProperties.ExampleLeadingZeroCounters | library/src/main/java/com/google/android/exoplayer/text/subrip/SubripParser.java:65 | the counters "01", "+007" and "-0" are accepted |
| SubripProperties.ExampleEmptyCounterLine | library/src/main/java/com/google/android/exoplayer/text/subrip/SubripParser.java:65-67 | an empty first line fails with "Expected numeric counter: " |
| SubripProperties.DocumentEndsAfterCounter | library/src/main/java/com/google/android/exoplayer/text/subrip/SubripParser.java:71-72 | a document that is just a counter fails with NullPointerException |
| SubripProperties.ExampleEndsAfterCounter | library/src/main/java/com/google/android/exoplayer/text/subrip/SubripParser.java:71-72 | the document "1" fails with NullPointerException |
| SubripProperties.DocumentTimingRejected | library/src/main/java/com/google/android/exoplayer/text/subrip/SubripParser.java:73-78 | a second line with no whitespace-flanked arrow fails the document with a ParserException naming it |
| SubripProperties.CuesOfIndex | library/src/main/java/com/google/android/exoplayer/text/subrip/SubripParser.java:90 | cue i holds the text of block i |
| SubripProperties.TimesOfIndex | library/src/main/java/com/google/android/exoplayer/text/subrip/SubripParser.java:74-75 | times 2i and 2i+1 are block i's start and end plus startTimeUs |
| SubripProperties.DocumentLists | library/src/main/java/com/google/android/exoplayer/text/subrip/SubripParser.java:57-99 | in a successful parse, cue i and times 2i and 2i+1 come from block i, in input order |
| SubripProperties.ParsedBlockOrigin | library/src/main/java/com/google/android/exoplayer/text/subrip/SubripParser.java:71-89 | a parsed block's times are the values of the two tokens of its timing line, and its text comes from its own text lines |
| SubripProperties.NextTurn | library/src/main/java/com/google/android/exoplayer/text/subrip/SubripParser.java:62-91 | the outer loop's next turn starts after the lines one turn reads, and never before it or past the end |
| SubripProperties.BlockStart | library/src/main/java/com/google/android/exoplayer/text/subrip/SubripParser.java:62-91 | the line where the outer loop's turn i begins: the first line for turn 0, and each later turn where the one before it stopped reading; it lies within the input |
| SubripProperties.ScanFromTurn | library/src/main/java/com/google/android/exoplayer/text/subrip/SubripParser.java:62-91 | from the line where turn i begins, the scan finds exactly the blocks from the i-th on |
| SubripProperties.BlockSource | library/src/main/java/com/google/android/exoplayer/text/subrip/SubripParser.java:62-91 | block i of the scan is the block that the outer loop's turn i reads, starting at BlockStart(lines, pos, i) |
| SubripProperties.BlockStartsIncrease | library/src/main/java/com/google/android/exoplayer/text/subrip/SubripParser.java:62-91 | turn i + 1 begins where turn i stopped reading, at least two lines later, so blocks are read in input order |
| SubripProperties.StoredTimes | library/src/main/java/com/google/android/exoplayer/text/subrip/SubripParser.java:74-75 | in a successful parse, times 2i and 2i+1 are startTimeUs plus the values of the left and right tokens of the timing line read by the outer loop's turn i, which begins at line BlockStart(lines, 0, i); cue i holds that turn's text |
| SubripProperties.BlocksFitInLines | library/src/main/java/com/google/android/exoplayer/text/subrip/SubripParser.java:62-91 | every block takes at least two lines |
| SubripProperties.CuesFitInLines | library/src/main/java/com/google/android/exoplayer/text/subrip/SubripParser.java:62-91 | a document of n lines gives at most n / 2 cues |
| SubripProperties.BlockTimesAreWholeMilliseconds | library/src/main/java/com/google/android/exoplayer/text/subrip/SubripParser.java:112-116 | every block time is a non-negative whole number of milliseconds |
| SubripProperties.ParsedBlockTimes | library/src/main/java/com/google/android/exoplayer/text/subrip/SubripParser.java:74-75 | the times of one parsed block are whole milliseconds |
| SubripProperties.TimesAfterStart | library/src/main/java/com/google/android/exoplayer/text/subrip/SubripParser.java:74-75 | every entry of the times list is startTimeUs plus a non-negative whole number of milliseconds |
| SubripProperties.DocumentTimesAfterStart | library/src/main/java/com/google/android/exoplayer/text/subrip/SubripParser.java:74-75 | the same, for every stored time of a successful parse |
| SubripProperties.TimesOfShift | library/src/main/java/com/google/android/exoplayer/text/subrip/SubripParser.java:74-75 | changing the offset shifts every time by the difference |
| SubripProperties.OffsetShiftsTimes | library/src/main/java/com/google/android/exoplayer/text/subrip/SubripParser.java:74-75 | changing startTimeUs leaves failures and cues unchanged and shifts every time by exactly the difference |
| SubripProperties.CueTextIsJoin | library/src/main/java/com/google/android/exoplayer/text/subrip/SubripParser.java:81-87 | a block's text is its lines trimmed, with the leading lines that trim to nothing dropped, joined by "<br>" |
| SubripProperties.ExampleCueText | library/src/main/java/com/google/android/exoplayer/text/subrip/SubripParser.java:81-87 | "Hello" and "world" give "Hello<br>world" |
| SubripProperties.BlockWithoutText | library/src/main/java/com/google/android/exoplayer/text/subrip/SubripParser.java:81-87 | a timing line followed at once by an empty line or the end of input gives a cue with empty text |
| SubripProperties.EntryHeader | library/src/main/java/com/google/android/exoplayer/text/subrip/SubripParser.java:64-75 | the counter and timing lines written for a valid entry pass every check and give the entry's times |
| SubripProperties.EntryTextEnd | library/src/main/java/com/google/android/exoplayer/text/subrip/SubripParser.java:82 | the text of an entry runs to its blank line |
| SubripProperties.BlockOfEntryAt | library/src/main/java/com/google/android/exoplayer/text/subrip/SubripParser.java:62-90 | the lines of a valid entry are read as its block, and the scan resumes after its blank line |
| SubripProperties.EntryParses | library/src/main/java/com/google/android/exoplayer/text/subrip/SubripParser.java:62-90 | the same for an entry placed after any prefix and before anything |
| SubripProperties.EntriesParse | library/src/main/java/com/google/android/exoplayer/text/subrip/SubripParser.java:62-91 | a run of valid entries is read as their blocks, in order |
| SubripProperties.DocumentRoundTrip | library/src/main/java/com/google/android/exoplayer/text/subrip/SubripParser.java:55-100 | a document written from valid entries is read back: one cue per entry with its joined text, and the entry's two times, shifted, at 2i and 2i+1 |

## Left out

- Decoding the input stream and closing the reader (lines 59, 93-94) are I/O. The model starts from the decoded lines, with their terminators already removed. An `IOException` from the reader is not modelled. The `inputEncoding` argument is ignored by the source as well.
- `Html.fromHtml` is an Android call. A `Cue` holds the accumulated markup string that would be handed to it.
- `canParse` compares the MIME type with a constant defined in `MimeTypes`, and `MimeTypes` is not part of this model.
- `Cue`, `SubripSubtitle`, `Util.toLongArray` and `ParserException` are plain datatypes here. The arrays built at lines 96-98 are sequences.
- SubripParser.ParseTimestampUs: does not model 64-bit wrap-around in the multiplications at lines 112-116, nor in `startTimeUs + parseTimestampUs(...)`, because the model uses unbounded integers; a huge hours group can wrap in the source.
- JavaLang.ParseInt: accepts only ASCII digits, whereas Integer.parseInt also accepts other Unicode decimal digits (the regex `\d` is ASCII-only, so timestamps are unaffected).
- SubripPatterns.TimingLineSplitsAtLastArrow: is stated only for lines without line terminators (U+0085, U+2028 and U+2029 can still occur inside a line read by `readLine`). TimingLineFoundIff covers every line.
- SubripParser.Parser.Parse: adds a block's two times after the block has been read, whereas the source adds them before reading the text. When a block fails, the lists are discarded, so the order is not observable.
- A NumberFormatException carries the refused token instead of the source's message text.
