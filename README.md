# tvgenerator in Dafny

A model of the core of tvgenerator, a C++ generator of test vector files for hardware designs. This is the text
the generator writes and the state it keeps while writing it.

- **TVGenerator** owns three output streams: a combined test vector file, a stimuli file and an expected-responses file.
  - It also holds a copy of the settings of each stream, a row counter per stream, and a flag choosing single-file or
    two-file mode.
  - Initialising it opens the file(s) and writes a header. The header is five labelled entries followed by a caption
    block.
  - Each row of values becomes one data line. Before the row, the caption block is repeated whenever the row counter is a
    positive multiple of the caption interval.
  - Dispatchers refuse a call that does not fit the mode, before anything changes.
- **TVFileSettings** is a mutable settings record whose signal declaration list only grows by appending.
- **SignalDeclaration** is an immutable descriptor of one signal column.

Modules, one per file:

- `signals.dfy`, module `Signals`: `SignalDeclaration` as a datatype. Its datatype constructor is the four-argument
  constructor; three functions give the defaulting constructors.
- `settings.dfy`, module `Settings`: the `TVFileSettings` class, its three constructors, its setters and `AddSignal`.
  `FileProfile` is the value of all its fields. The generator stores that value, because the source copies settings
  objects by value.
- `strings.dfy`, module `Strings`: runs of spaces, joining with single spaces (and its inverse, splitting), and decimal
  printing of the width shown in captions.
- `format.dfy`, module `Format`: the text as functions of a profile. It covers the digit count of a column, the leading
  string of each caption, the caption block, the header, and data, arbitrary and comment lines. It also gives the rule
  that repeats captions, and lemmas about the layout.
- `streams.dfy`, module `Streams`: an output file stream as a class. It holds the lines written so far, whether it is
  open, and whether its state is failed.
- `writers.dfy`, module `Writers`: the private writing routines of TVGenerator as methods on a stream. Each method is
  proved to append exactly the lines the `Format` functions describe.
- `generator.dfy`, module `Generator`: the `TVGenerator` class, with its constructor, the two initialisations,
  `Finalize` and every public writing operation.

Exceptions are modelled as results:

- `Err(CardinalityMismatch)` is the `invalid_argument` thrown for a row of the wrong length.
- `Err(ModeMismatch)` is the `logic_error` thrown for a call in the wrong mode.

Both leave every stream and counter unchanged.

Converting a value to a string (`StdLogicVector::ToString`) is not part of this model. It is a parameter
`render: (V, int) -> string` of the row-writing operations, taking a value and its column's print base. The "Created"
time stamp, which the source reads from the clock, is a `created` parameter.

## Model

| member | source | states |
|---|---|---|
| Signals.DefaultDeclaration | src/SignalDeclaration.cpp:37-38 | unnamed signal of width 0, base 16, width shown in the caption |
| Signals.NamedDeclaration | src/SignalDeclaration.cpp:46-50 | name and width as given, base 16, width shown in the caption |
| Signals.BasedDeclaration | src/SignalDeclaration.cpp:57-63 | name, width and base as given, width shown in the caption |
| Settings.TVFileSettings.constructor | src/TVFileSettings.cpp:44-48 | path, project, content and author empty; comment indicator "%"; one comment space; line-end comments on, pre-line comments off; no declarations |
| Settings.TVFileSettings.WithDescription | src/TVFileSettings.cpp:58-67 | path, author, content and project stored as given, with the same default comment format |
| Settings.TVFileSettings.WithCommentFormat | src/TVFileSettings.cpp:76-87 | descriptive fields, comment indicator and comment spaces stored as given; line-end comments on, pre-line comments off |
| Settings.TVFileSettings.SetFilePath | include/TVFileSettings.h:86 | only the path changes; every other field keeps its value |
| Settings.TVFileSettings.SetProjectName | include/TVFileSettings.h:87 | only the project name changes |
| Settings.TVFileSettings.SetContent | include/TVFileSettings.h:88 | only the content changes |
| Settings.TVFileSettings.SetAuthor | include/TVFileSettings.h:89 | only the author changes |
| Settings.TVFileSettings.EnableLineEndComments | include/TVFileSettings.h:90-91 | the line-end flag becomes the argument, so reading it back gives the argument; nothing else changes |
| Settings.TVFileSettings.EnablePreLineComments | include/TVFileSettings.h:92-93 | the pre-line flag becomes the argument; nothing else changes |
| Settings.TVFileSettings.SetTVDeclarations | include/TVFileSettings.h:94-95 | the whole declaration list is replaced by the argument; nothing else changes |
| Settings.TVFileSettings.AddSignal | src/TVFileSettings.cpp:101-103 | exactly one declaration is appended at the end and earlier entries are unchanged; nothing is rejected |
| Settings.AddSignals | src/TVFileSettings.cpp:101-103 | after one append per element, the list is the old list followed by the added declarations in call order, so k calls on a fresh object give a list of length k |
| Settings.AddSignalsIsAppend | src/TVFileSettings.cpp:101-103 | appending declarations one by one equals concatenating the start list with the added list |
| Settings.AddAllSignals | src/TVFileSettings.cpp:101-103 | a loop of AddSignal calls on a settings object leaves its list equal to AddSignals of the old list, with no other field changed, so k calls on a fresh object give exactly the k declarations in call order |
| Strings.SplitJoin | src/TVGenerator.cpp:149-155 | values joined by single spaces are recovered by splitting the line at its spaces, when no value holds a space |
| Strings.JoinColumn | src/TVGenerator.cpp:149-155 | in a joined line, value i starts one character after the joined values before it |
| Strings.IntToStringRoundTrip | src/TVGenerator.cpp:222-224 | the width printed in a caption reads back as the declared width |
| Format.Log2 | src/TVGenerator.cpp:280 | for a power-of-two base, 2 to the result is the base, and the result is at least 1 for bases of 2 or more |
| Format.DigitsIsCeiling | src/TVGenerator.cpp:280-281 | the digit count of a column is the least count whose digits cover the width in bits (ceiling of width / log2 base) |
| Format.Segment | src/TVGenerator.cpp:283-288 | column j adds digits - offset spaces, then signalDistance spaces, then the column indicator exactly when it is a separator |
| Format.PreCaptionStart | src/TVGenerator.cpp:269-290 | every caption prefix starts with the comment indicator; the prefix of caption 0 is the indicator alone |
| Format.SeparatorCountValue | src/TVGenerator.cpp:286-288 | the column indicator is written max(0, idx - 1) times, never after the last column before idx |
| Format.PreCaptionUpToLength | src/TVGenerator.cpp:269-289 | a prefix is the indicator, each column's digits - offset + signalDistance, and one column indicator per separator |
| Format.ColumnSpanValue | src/TVGenerator.cpp:274-284 | the offsets cancel the comment indicator and all but one of the column indicators |
| Format.PreCaptionLength | src/TVGenerator.cpp:258-291 | the prefix of caption idx >= 1 is as long as the digits of the columns before it plus idx gaps of signalDistance |
| Format.WidthSuffix | src/TVGenerator.cpp:222-224 | the " (N bit)" suffix is present exactly when the declaration asks for it |
| Format.CaptionNameLineParts | src/TVGenerator.cpp:217-224 | a caption line is the prefix of its column, the name, and " (N bit)" with N the width exactly when the declaration asks for it |
| Format.CaptionNameLinesAt | src/TVGenerator.cpp:214-227 | caption line i belongs to declaration i, in list order |
| Format.TrailerLines | src/TVGenerator.cpp:229-242 | two trailer lines with line-end comments, one without |
| Format.TrailerLinesAt | src/TVGenerator.cpp:233-241 | the comments-column header and the column indicator follow the trailer prefix and commentSpaces - signalDistance spaces |
| Format.CaptionBlockShape | src/TVGenerator.cpp:207-243 | the block is the bare comment indicator, one caption line per declaration in order, then the trailer |
| Format.HeaderEntryLayout | src/TVGenerator.cpp:115-120 | an entry is indicator, space, label padded to 10 characters, value; the value always starts 10 characters after the label does |
| Format.HeaderShape | src/TVGenerator.cpp:102-107 | the header is File, Author, Project, Created and Content entries in that order, then the caption block |
| Format.TrailingComment | src/TVGenerator.cpp:156-159 | a trailing comment is present exactly when line-end comments are on and the comment is not empty |
| Format.TrailingCommentLayout | src/TVGenerator.cpp:157-158 | a present trailing comment is commentSpaces spaces, the comment indicator, one space and the comment |
| Format.RenderRow | src/TVGenerator.cpp:150-151 | value i is rendered in the print base of declaration i |
| Format.LineLayout | src/TVGenerator.cpp:149-161 | a data line is the renderings joined by single spaces, then the trailing comment; an arbitrary line is the caller's text with the same trailing comment |
| Format.CommentLineLayout | src/TVGenerator.cpp:196-199 | a comment line is the indicator, one space and the comment, whatever the line-end settings are |
| Format.CaptionPeriod | src/TVGenerator.cpp:145-147 | after a row with captions (or row 0), the next interval - 1 rows have none and the one after has them |
| Format.TVLineOutputShape | src/TVGenerator.cpp:143-162 | a row writes the caption block first exactly when it is due, then exactly one data line, or no line when nothing is declared |
| Format.CaptionAlignsWithValue | src/TVGenerator.cpp:258-291 | with signalDistance 1 and a row whose values all take their column's digit width, caption i starts at the position where value i starts, for every caption i >= 1 (caption 0 starts right after the comment indicator, as Format.PreCaptionStart states) |
| Format.CaptionShiftFromValue | src/TVGenerator.cpp:153-155 | for a row whose values all take their column's digit width and every caption i >= 1, caption i starts i * (signalDistance - 1) characters after value i, because values are separated by one space whatever signalDistance is |
| Format.DataLineCommentAt | src/TVGenerator.cpp:156-158 | the comment indicator of a commented data line starts commentSpaces characters after the last value |
| Format.CommentHeaderAligns | src/TVGenerator.cpp:233-241 | with signalDistance 1, for a non-empty row whose values all take their column's digit width and a non-empty line-end comment, the comments-column header and the column indicator sit above the comment indicator of that data line |
| Streams.OutStream.constructor | src/TVGenerator.cpp:56-57 | a default-constructed output file stream: nothing written, not open, state good |
| Streams.OutStream.WriteLine | src/TVGenerator.cpp:118-119 | a line lands only on an open stream in a good state; on any other stream nothing changes |
| Streams.OutStream.Open | src/TVGenerator.cpp:310 | opening an open stream fails; opening a closed one succeeds |
| Streams.OutStream.Close | src/TVGenerator.cpp:343-345 | closing a stream that is not open fails; in any case it is closed afterwards |
| Writers.GeneratePreSignalCaptionString | src/TVGenerator.cpp:258-291 | the loop builds exactly the caption prefix of the index |
| Writers.WriteSignalCaptions | src/TVGenerator.cpp:207-243 | appends exactly the caption block to a writable stream and nothing to any other |
| Writers.WriteCaptionNameLine | src/TVGenerator.cpp:217-226 | appends the caption line of declaration i |
| Writers.WriteCaptionTrailer | src/TVGenerator.cpp:229-242 | appends the trailer lines |
| Writers.WriteTVFileHeaderEntry | src/TVGenerator.cpp:115-120 | appends one padded header entry |
| Writers.WriteTVFileHeader | src/TVGenerator.cpp:93-108 | appends the five entries and the caption block |
| Writers.WriteTVLine | src/TVGenerator.cpp:133-167 | a row of the wrong length fails and changes nothing; otherwise returns 0, the counter grows by exactly 1, and the captions are written if due, then the data line |
| Writers.WriteDataLine | src/TVGenerator.cpp:149-162 | the value loop writes the data line once, after the last value, and nothing for an empty row |
| Writers.WriteArbitraryTVLine | src/TVGenerator.cpp:177-187 | appends the line with a trailing comment formatted by the generator's combined-file settings, not by the settings passed in |
| Writers.WriteTVCommentLine | src/TVGenerator.cpp:196-199 | appends one comment line |
| Generator.TVGenerator.constructor | src/TVGenerator.cpp:56-58 | single-file mode, all counters 0, unopened streams; each settings copy has empty path, project, content and author and the default comment format |
| Generator.TVGenerator.WriteTVFileHeader | src/TVGenerator.cpp:78-87 | the header goes to the combined file in single-file mode and to both other files otherwise |
| Generator.TVGenerator.Initialize | src/TVGenerator.cpp:307-313 | single-file mode, settings copied, combined file opened, header written to it; counters untouched |
| Generator.TVGenerator.InitializeDual | src/TVGenerator.cpp:325-334 | two-file mode, both settings copied, both files opened, a header written to each |
| Generator.TVGenerator.Finalize | src/TVGenerator.cpp:342-352 | only streams in a good state are closed; afterwards no stream accepts a write |
| Generator.TVGenerator.WriteTestVectorLine | src/TVGenerator.cpp:361-371 | fails before any change when not single-file; otherwise a row is written to the combined file |
| Generator.TVGenerator.WriteStimuliLine | src/TVGenerator.cpp:379-388 | fails before any change in single-file mode; otherwise a row is written to the stimuli file |
| Generator.TVGenerator.WriteExpRspLine | src/TVGenerator.cpp:397-406 | fails before any change in single-file mode; otherwise a row is written to the expected-responses file |
| Generator.TVGenerator.WriteArbitraryTVLine | src/TVGenerator.cpp:421-429 | fails before any change when not single-file; otherwise an arbitrary line is written to the combined file |
| Generator.TVGenerator.WriteArbitraryTVLineWithoutComment | src/TVGenerator.cpp:413-415 | the one-argument form writes the line alone |
| Generator.TVGenerator.WriteArbitraryStimuliLine | src/TVGenerator.cpp:444-452 | fails before any change in single-file mode; otherwise it writes to the stimuli file with the combined file's comment format |
| Generator.TVGenerator.WriteArbitraryStimuliLineWithoutComment | src/TVGenerator.cpp:435-437 | the one-argument form writes the line alone |
| Generator.TVGenerator.WriteArbitraryExpRspLine | src/TVGenerator.cpp:467-475 | fails before any change in single-file mode; otherwise it writes to the expected-responses file with the combined file's comment format |
| Generator.TVGenerator.WriteArbitraryExpRspLineWithoutComment | src/TVGenerator.cpp:458-460 | the one-argument form writes the line alone |
| Generator.TVGenerator.WriteTVCommentLine | src/TVGenerator.cpp:481-483 | a comment line goes to the combined file in either mode |
| Generator.TVGenerator.WriteStimuliCommentLine | src/TVGenerator.cpp:489-491 | a comment line goes to the stimuli file in either mode |
| Generator.TVGenerator.WriteExpRspCommentLine | src/TVGenerator.cpp:497-499 | a comment line goes to the expected-responses file in either mode |

## Left out

- File system: opening a closed stream always succeeds, and a file that cannot be created is not modelled.
  - The stream state the generator depends on is modelled: open, closed and failed.
  - Writes to a stream that is not open, or is failed, are dropped.
- Streams.OutStream.WriteLine: a write to a stream that is not writable does not set the stream's error state. No
  operation of the generator reads that state before an `open`, which clears it, except `Finalize`. In `Finalize` such a
  stream ends closed and failed either way.
- The clock: the "Created" entry is the `created` parameter rather than a formatted local time.
  - Generator.TVGenerator.InitializeDual: one `created` value goes into both headers. The source reads the clock once
    per header, so its two time stamps can differ.
- `StdLogicVector` and its `ToString`: the caller supplies the rendering as the `render` parameter.
- Format.Digits: the source computes `ceil(width / (log(base) / log(2)))` in floating point. The model uses exact integer
  ceiling division and only for bases that are powers of two of at least 2.
  - Other bases are excluded by `SupportedBase`.
  - Rounding in the floating-point formula is not modelled.
- Negative repeat counts: the source builds `string(n, ' ')` with the following counts:
  - digits - offset;
  - signalDistance;
  - commentSpaces - signalDistance;
  - commentSpaces.

  The last three are `int`s: a negative one converts to a huge unsigned size and `string` throws `length_error`. The
  first is a `float`, and converting a negative `float` to an unsigned size is undefined behaviour in C++. The
  preconditions `CaptionsDefined`, `CommentSpacingDefined` and `RowDefined` keep each count non-negative whenever the
  source evaluates it, so the model has neither the throw nor the undefined behaviour. They are guarded as the
  source's control flow is: the caption counts only when captions are due, commentSpaces only when a non-empty
  line-end comment is written, and nothing at all for a row of the wrong length or a line without a comment.
- Caption interval: `count % signalCaptionInterval` is undefined for an interval of 0 once the counter is positive. The
  row-writing operations require a non-zero interval whenever the counter is positive and the row has the right
  length, the only case in which the source evaluates the remainder. A negative interval is modelled;
  for it, as for a positive one, captions are due exactly at the positive multiples.
- Format.Offset: a Dafny string is a sequence of characters, so `|s|` counts characters. The source's `length()`
  counts bytes. The model matches the source only for comment and column indicators made of single-byte (ASCII)
  characters. For an indicator such as a multi-byte "§", the source subtracts more spaces than the model does.
- Counter overflow: the counters are unbounded integers, not 32-bit `int`s.
- Settings fields:
  - `signalDistance`, `signalCaptionInterval` and `dontCareIdentifier` are set by no constructor and no setter. In
    C++, reading such an uninitialised `int` member (as the row and caption writers do with the first two, in
    src/TVGenerator.cpp at lines 145, 234 and 284) is undefined behaviour. The model does not capture that undefined
    behaviour: it leaves the fields unassigned, so they may take any value, and proves its contracts for every value.
  - `columnIndicator` and `commentsColumnHeader` are strings that no constructor assigns. They are therefore empty, as
    default-constructed `std::string` members are.
  - `enablePreLineComments` and `dontCareIdentifier` are stored but never read by the generator.
- Getters of TVFileSettings: they are plain field reads, so the model reads the fields. `getTVDeclarations` returns a
  copy; in the model a sequence is a value, so a caller cannot change the settings through it.
- The seven-argument TVFileSettings constructor declared in include/TVFileSettings.h:78-80 has no definition. Only the
  six-argument constructor that is defined is modelled.
- Destructors: they do nothing and are not modelled.
