/** The text TVGenerator writes, as functions of a file profile: the five
    header entries, the column-aligned caption block with the leading string
    of each caption, data lines, arbitrary lines and comment lines, and the
    rule that decides when the caption block is repeated. */
module Format {
  import opened Strings
  import opened Signals
  import opened Settings

  // ---------------------------------------------------------------------------
  // Digit counts
  // ---------------------------------------------------------------------------

  predicate IsPowerOfTwo(n: int)
    decreases if n < 0 then 0 else n
  {
    n == 1 || (n > 1 && n % 2 == 0 && IsPowerOfTwo(n / 2))
  }

  function Pow2(k: nat): (r: int)
    ensures r >= 1
  {
    if k == 0 then 1 else 2 * Pow2(k - 1)
  }

  /** log2 of a power of two: the source's log(base) / log(2). */
  function Log2(n: int): (k: nat)
    requires IsPowerOfTwo(n)
    ensures Pow2(k) == n
    ensures n >= 2 ==> k >= 1
    decreases n
  {
    if n == 1 then 0 else 1 + Log2(n / 2)
  }

  /** The number bases whose digit count the model computes exactly. */
  predicate SupportedBase(base: int)
  {
    base >= 2 && IsPowerOfTwo(base)
  }

  /** ceil(width / log2(base)): how many characters a value of width bits
      takes when printed in base. */
  function Digits(width: int, base: int): int
    requires SupportedBase(base)
  {
    -((-width) / Log2(base))
  }

  /** Digits is the ceiling of width / log2(base): the least digit count
      whose bits cover the width. */
  lemma DigitsIsCeiling(width: int, base: int)
    requires SupportedBase(base)
    ensures Digits(width, base) * Log2(base) >= width
    ensures (Digits(width, base) - 1) * Log2(base) < width
  {
    var k := Log2(base);
    var q, m := (-width) / k, (-width) % k;
    assert -width == q * k + m && 0 <= m < k;
    MulNeg(q, k);
    MulSucc(-q - 1, k);
    assert (-q - 1) * k == -(q * k) - k;
  }

  function DeclDigits(d: SignalDeclaration): int
    requires SupportedBase(d.printBase)
  {
    Digits(d.width, d.printBase)
  }

  // ---------------------------------------------------------------------------
  // Profiles whose captions the source can build
  // ---------------------------------------------------------------------------

  /** What is subtracted from column j's digit count in a caption prefix: the
      comment indicator's length for the first column, the column indicator's
      length for the others. */
  function Offset(p: FileProfile, j: nat): nat
  {
    if j == 0 then |p.commentIndicator| else |p.columnIndicator|
  }

  /** Column j's prefix piece has a non-negative number of spaces. */
  predicate ColumnDefined(p: FileProfile, j: nat)
    requires j < |p.tvDeclarations|
  {
    SupportedBase(p.tvDeclarations[j].printBase) &&
    DeclDigits(p.tvDeclarations[j]) >= Offset(p, j)
  }

  /** Every repeat count the caption block uses is non-negative. */
  predicate CaptionsDefined(p: FileProfile)
  {
    (forall j :: 0 <= j < |p.tvDeclarations| ==> ColumnDefined(p, j)) &&
    (|p.tvDeclarations| > 0 ==> p.signalDistance >= 0) &&
    (p.enableLineEndComments ==> p.signalDistance <= p.commentSpaces)
  }

  /** The digit count of column j of a profile whose captions are defined. */
  function ColumnDigits(p: FileProfile, j: nat): (d: int)
    requires j < |p.tvDeclarations| && CaptionsDefined(p)
    ensures d >= Offset(p, j)
  {
    assert ColumnDefined(p, j);
    DeclDigits(p.tvDeclarations[j])
  }

  /** The spacing before a line-end comment is a valid repeat count
      whenever that comment is written. */
  predicate CommentSpacingDefined(p: FileProfile, comment: string)
  {
    p.enableLineEndComments && comment != "" ==> p.commentSpaces >= 0
  }

  /** Every repeat count and remainder a row of profile p with this comment
      at row counter count evaluates is defined: the caption interval when
      it is tested, the caption block when it is due, the comment spacing
      when a data line is written. */
  predicate RowDefined(p: FileProfile, comment: string, count: int)
  {
    (count > 0 ==> p.signalCaptionInterval != 0 &&
                   (count % p.signalCaptionInterval == 0 ==> CaptionsDefined(p))) &&
    (|p.tvDeclarations| > 0 ==> CommentSpacingDefined(p, comment))
  }

  // ---------------------------------------------------------------------------
  // The leading string of a caption (GeneratePreSignalCaptionString)
  // ---------------------------------------------------------------------------

  /** Whether the column indicator follows column j in the prefix of caption
      idx: never for the last column before idx. */
  predicate HasSeparator(idx: nat, j: nat)
  {
    idx > 1 && j != idx - 1
  }

  /** The piece column j contributes to the prefix of caption idx. */
  function Segment(p: FileProfile, idx: nat, j: nat): (r: string)
    requires j < idx <= |p.tvDeclarations|
    requires CaptionsDefined(p)
    ensures |r| == ColumnDigits(p, j) - Offset(p, j) + p.signalDistance +
                   (if HasSeparator(idx, j) then |p.columnIndicator| else 0)
  {
    Spaces(ColumnDigits(p, j) - Offset(p, j)) + Spaces(p.signalDistance) +
    (if HasSeparator(idx, j) then p.columnIndicator else "")
  }

  /** The comment indicator followed by the pieces of the first n columns. */
  function PreCaptionUpTo(p: FileProfile, idx: nat, n: nat): string
    requires n <= idx <= |p.tvDeclarations| && CaptionsDefined(p)
  {
    if n == 0 then p.commentIndicator else PreCaptionUpTo(p, idx, n - 1) + Segment(p, idx, n - 1)
  }

  /** The string in front of caption idx (idx == |declarations| is the
      trailer after the last caption). */
  function PreCaption(p: FileProfile, idx: nat): string
    requires idx <= |p.tvDeclarations| && CaptionsDefined(p)
  {
    PreCaptionUpTo(p, idx, idx)
  }

  lemma {:induction false} PreCaptionUpToStart(p: FileProfile, idx: nat, n: nat)
    requires n <= idx <= |p.tvDeclarations| && CaptionsDefined(p)
    ensures var r := PreCaptionUpTo(p, idx, n);
      |p.commentIndicator| <= |r| && r[..|p.commentIndicator|] == p.commentIndicator
  {
    if n > 0 {
      PreCaptionUpToStart(p, idx, n - 1);
      var prev := PreCaptionUpTo(p, idx, n - 1);
      assert (prev + Segment(p, idx, n - 1))[..|p.commentIndicator|] == prev[..|p.commentIndicator|];
    }
  }

  /** Every caption prefix starts with the comment indicator, and the prefix
      of the first caption is the comment indicator alone. */
  lemma PreCaptionStart(p: FileProfile, idx: nat)
    requires idx <= |p.tvDeclarations| && CaptionsDefined(p)
    ensures |p.commentIndicator| <= |PreCaption(p, idx)|
    ensures PreCaption(p, idx)[..|p.commentIndicator|] == p.commentIndicator
    ensures idx == 0 ==> PreCaption(p, idx) == p.commentIndicator
  {
    PreCaptionUpToStart(p, idx, idx);
  }

  /** How many of the first n columns are followed by the column indicator. */
  function SeparatorCount(idx: nat, n: nat): nat
  {
    if n == 0 then 0 else SeparatorCount(idx, n - 1) + (if HasSeparator(idx, n - 1) then 1 else 0)
  }

  /** The column indicator is written max(0, idx - 1) times, never after the
      last column before idx. */
  lemma {:induction false} SeparatorCountValue(idx: nat)
    ensures SeparatorCount(idx, idx) == if idx > 1 then idx - 1 else 0
    ensures idx > 0 ==> !HasSeparator(idx, idx - 1)
  {
    SeparatorCountUpTo(idx, idx);
  }

  lemma {:induction false} SeparatorCountUpTo(idx: nat, n: nat)
    requires n <= idx
    ensures SeparatorCount(idx, n) == if idx > 1 then (if n < idx then n else idx - 1) else 0
  {
    if n > 0 {
      SeparatorCountUpTo(idx, n - 1);
    }
  }

  /** The sum over the first n columns of digits - offset + signalDistance. */
  function ColumnSpan(p: FileProfile, n: nat): int
    requires n <= |p.tvDeclarations| && CaptionsDefined(p)
  {
    if n == 0 then 0
    else ColumnSpan(p, n - 1) + ColumnDigits(p, n - 1) - Offset(p, n - 1) + p.signalDistance
  }

  /** The digit counts of the first n columns added up. */
  function SumDigits(p: FileProfile, n: nat): int
    requires n <= |p.tvDeclarations| && CaptionsDefined(p)
  {
    if n == 0 then 0 else SumDigits(p, n - 1) + ColumnDigits(p, n - 1)
  }

  /** The prefix is the comment indicator, each column's digits less its
      offset plus signalDistance spaces, and one column indicator per
      separator. */
  lemma {:induction false} PreCaptionUpToLength(p: FileProfile, idx: nat, n: nat)
    requires n <= idx <= |p.tvDeclarations| && CaptionsDefined(p)
    ensures |PreCaptionUpTo(p, idx, n)| ==
            |p.commentIndicator| + ColumnSpan(p, n) + SeparatorCount(idx, n) * |p.columnIndicator|
  {
    if n > 0 {
      PreCaptionUpToLength(p, idx, n - 1);
      var c, k := |p.columnIndicator|, SeparatorCount(idx, n - 1);
      if HasSeparator(idx, n - 1) {
        MulSucc(k, c);
      }
      assert |PreCaptionUpTo(p, idx, n)| == |PreCaptionUpTo(p, idx, n - 1)| + |Segment(p, idx, n - 1)|;
    }
  }

  /** The offsets and separators cancel: after n >= 1 columns, the span is the
      digits plus n gaps, less the comment indicator and n - 1 column
      indicators. */
  lemma {:induction false} ColumnSpanValue(p: FileProfile, n: nat)
    requires 0 < n <= |p.tvDeclarations| && CaptionsDefined(p)
    ensures ColumnSpan(p, n) ==
            SumDigits(p, n) + n * p.signalDistance - |p.commentIndicator| - (n - 1) * |p.columnIndicator|
  {
    if n > 1 {
      ColumnSpanValue(p, n - 1);
      MulSucc(n - 1, p.signalDistance);
      MulSucc(n - 2, |p.columnIndicator|);
    }
  }

  /** The prefix of caption idx >= 1 is exactly as long as the digits of the
      columns before it plus idx gaps of signalDistance. */
  lemma PreCaptionLength(p: FileProfile, idx: nat)
    requires 0 < idx <= |p.tvDeclarations| && CaptionsDefined(p)
    ensures |PreCaption(p, idx)| == SumDigits(p, idx) + idx * p.signalDistance
  {
    PreCaptionUpToLength(p, idx, idx);
    SeparatorCountValue(idx);
    ColumnSpanValue(p, idx);
  }

  // ---------------------------------------------------------------------------
  // The caption block (WriteSignalCaptions)
  // ---------------------------------------------------------------------------

  /** " (N bit)" when the declaration asks for its width in the caption. */
  function WidthSuffix(d: SignalDeclaration): (r: string)
    ensures r != "" <==> d.appendWidthInCaption
  {
    if d.appendWidthInCaption then " (" + IntToString(d.width) + " bit)" else ""
  }

  /** The caption line of column i: its prefix, the name, the width suffix. */
  function CaptionNameLine(p: FileProfile, i: nat): string
    requires i < |p.tvDeclarations| && CaptionsDefined(p)
  {
    PreCaption(p, i) + p.tvDeclarations[i].name + WidthSuffix(p.tvDeclarations[i])
  }

  /** A caption line is the prefix of column i, then the signal's name, then
      " (N bit)" with N its width exactly when the declaration asks for it. */
  lemma CaptionNameLineParts(p: FileProfile, i: nat)
    requires i < |p.tvDeclarations| && CaptionsDefined(p)
    ensures var r, pre, d := CaptionNameLine(p, i), PreCaption(p, i), p.tvDeclarations[i];
      |r| >= |pre| + |d.name| && r[..|pre|] == pre && r[|pre|..|pre| + |d.name|] == d.name &&
      (|r| > |pre| + |d.name| <==> d.appendWidthInCaption) &&
      (d.appendWidthInCaption ==> r[|pre| + |d.name|..] == " (" + IntToString(d.width) + " bit)")
  {
    var r, pre, d := CaptionNameLine(p, i), PreCaption(p, i), p.tvDeclarations[i];
    assert r == pre + d.name + WidthSuffix(d);
    assert r[..|pre|] == pre;
    assert r[|pre|..|pre| + |d.name|] == d.name;
    assert r[|pre| + |d.name|..] == WidthSuffix(d);
  }

  /** The caption lines of the first n columns, in declaration order. */
  function CaptionNameLines(p: FileProfile, n: nat): (r: seq<string>)
    requires n <= |p.tvDeclarations| && CaptionsDefined(p)
    ensures |r| == n
  {
    if n == 0 then [] else CaptionNameLines(p, n - 1) + [CaptionNameLine(p, n - 1)]
  }

  lemma {:induction false} CaptionNameLinesAt(p: FileProfile, n: nat)
    requires n <= |p.tvDeclarations| && CaptionsDefined(p)
    ensures forall i :: 0 <= i < n ==> CaptionNameLines(p, n)[i] == CaptionNameLine(p, i)
  {
    if n > 0 {
      CaptionNameLinesAt(p, n - 1);
    }
  }

  /** The lines after the captions: the bare trailer prefix, or, with line-end
      comments, the comments-column header and the column indicator, each
      after the trailer prefix and commentSpaces - signalDistance spaces. */
  function TrailerLines(p: FileProfile): (r: seq<string>)
    requires CaptionsDefined(p)
    ensures |r| == if p.enableLineEndComments then 2 else 1
  {
    var pre := PreCaption(p, |p.tvDeclarations|);
    if p.enableLineEndComments then
      var gap := Spaces(p.commentSpaces - p.signalDistance);
      [pre + gap + p.commentsColumnHeader, pre + gap + p.columnIndicator]
    else [pre]
  }

  /** The caption block: a line holding only the comment indicator, one
      caption line per declaration in list order, then the trailer. */
  function CaptionLines(p: FileProfile): seq<string>
    requires CaptionsDefined(p)
  {
    [p.commentIndicator] + CaptionNameLines(p, |p.tvDeclarations|) + TrailerLines(p)
  }

  /** The caption block holds, in this order, the bare comment indicator, the
      caption line of every declaration in list order, and two trailer lines
      with line-end comments or one without. */
  lemma CaptionBlockShape(p: FileProfile)
    requires CaptionsDefined(p)
    ensures var r := CaptionLines(p);
      |r| == |p.tvDeclarations| + (if p.enableLineEndComments then 3 else 2) &&
      r[0] == p.commentIndicator &&
      (forall i :: 0 <= i < |p.tvDeclarations| ==> r[i + 1] == CaptionNameLine(p, i)) &&
      r[|p.tvDeclarations| + 1..] == TrailerLines(p)
  {
    var names := CaptionNameLines(p, |p.tvDeclarations|);
    CaptionNameLinesAt(p, |p.tvDeclarations|);
    assert CaptionLines(p) == [p.commentIndicator] + names + TrailerLines(p);
  }

  // ---------------------------------------------------------------------------
  // The file header (WriteTVFileHeader, WriteTVFileHeaderEntry)
  // ---------------------------------------------------------------------------

  /** The width of the label field of a header entry. */
  const PrefixWidth := 10

  /** A header entry: the comment indicator, a space, the label padded with
      spaces to PrefixWidth characters, then the value. */
  function HeaderEntry(indicator: string, prefix: string, entry: string): string
    requires |prefix| <= PrefixWidth
  {
    indicator + " " + prefix + Spaces(PrefixWidth - |prefix|) + entry
  }

  /** The label field of a header entry is always PrefixWidth characters: the
      label, then spaces; the value starts right after it. */
  lemma HeaderEntryLayout(indicator: string, prefix: string, entry: string)
    requires |prefix| <= PrefixWidth
    ensures var r := HeaderEntry(indicator, prefix, entry);
      |r| == |indicator| + 1 + PrefixWidth + |entry| &&
      r[..|indicator|] == indicator && r[|indicator|] == ' ' &&
      r[|indicator| + 1..|indicator| + 1 + |prefix|] == prefix &&
      (forall k :: |indicator| + 1 + |prefix| <= k < |indicator| + 1 + PrefixWidth ==> r[k] == ' ') &&
      r[|indicator| + 1 + PrefixWidth..] == entry
  {
    var r := HeaderEntry(indicator, prefix, entry);
    var pad := Spaces(PrefixWidth - |prefix|);
    assert r == indicator + " " + prefix + pad + entry;
    assert r[..|indicator|] == indicator;
    assert r[|indicator| + 1..|indicator| + 1 + |prefix|] == prefix;
    SpacesAreSpaces(PrefixWidth - |prefix|);
    assert forall k :: |indicator| + 1 + |prefix| <= k < |indicator| + 1 + PrefixWidth ==>
      r[k] == pad[k - |indicator| - 1 - |prefix|];
    assert r[|indicator| + 1 + PrefixWidth..] == entry;
  }

  /** The header labels, in the order they are written. */
  const HeaderLabels: seq<string> := ["File:", "Author:", "Project:", "Created:", "Content:"]

  /** The values shown against HeaderLabels; created stands for the local
      time the source reads from the clock. */
  function HeaderValues(p: FileProfile, created: string): seq<string>
  {
    [p.filePath, p.author, p.projectName, created, p.content]
  }

  /** The header: the five entries File, Author, Project, Created, Content,
      then the caption block. */
  function HeaderLines(p: FileProfile, created: string): seq<string>
    requires CaptionsDefined(p)
  {
    [HeaderEntry(p.commentIndicator, "File:", p.filePath),
     HeaderEntry(p.commentIndicator, "Author:", p.author),
     HeaderEntry(p.commentIndicator, "Project:", p.projectName),
     HeaderEntry(p.commentIndicator, "Created:", created),
     HeaderEntry(p.commentIndicator, "Content:", p.content)] + CaptionLines(p)
  }

  /** The header holds the entries for File, Author, Project, Created and
      Content, in that order, and then the caption block. */
  lemma HeaderShape(p: FileProfile, created: string)
    requires CaptionsDefined(p)
    ensures var r := HeaderLines(p, created);
      |r| == |HeaderLabels| + |CaptionLines(p)| &&
      (forall k :: 0 <= k < |HeaderLabels| ==>
        |HeaderLabels[k]| <= PrefixWidth &&
        r[k] == HeaderEntry(p.commentIndicator, HeaderLabels[k], HeaderValues(p, created)[k])) &&
      r[|HeaderLabels|..] == CaptionLines(p)
  {
  }

  // ---------------------------------------------------------------------------
  // Data, arbitrary and comment lines
  // ---------------------------------------------------------------------------

  /** What follows the last value of a line: present only when line-end
      comments are enabled and the comment is not empty, and then
      commentSpaces spaces, the comment indicator, a space and the comment. */
  function TrailingComment(p: FileProfile, comment: string): (r: string)
    requires CommentSpacingDefined(p, comment)
    ensures r == "" <==> !(p.enableLineEndComments && comment != "")
  {
    if p.enableLineEndComments && comment != "" then
      Spaces(p.commentSpaces) + p.commentIndicator + " " + comment
    else ""
  }

  /** A present trailing comment is commentSpaces spaces, the comment
      indicator, one space and the comment. */
  lemma TrailingCommentLayout(p: FileProfile, comment: string)
    requires CommentSpacingDefined(p, comment) && TrailingComment(p, comment) != ""
    ensures var r, cs, ind := TrailingComment(p, comment), p.commentSpaces, p.commentIndicator;
      |r| == cs + |ind| + 1 + |comment| &&
      r[..cs] == Spaces(cs) && r[cs..cs + |ind|] == ind && r[cs + |ind|] == ' ' &&
      r[cs + |ind| + 1..] == comment
  {
    var cs, ind := p.commentSpaces, p.commentIndicator;
    var r := TrailingComment(p, comment);
    assert r == Spaces(cs) + ind + " " + comment;
    assert r[..cs] == Spaces(cs);
    assert r[cs..cs + |ind|] == ind;
    assert r[cs + |ind| + 1..] == comment;
  }

  /** The renderings of a row's values, each in its column's base. */
  function RenderRow<V>(decls: seq<SignalDeclaration>, values: seq<V>, render: (V, int) -> string): (r: seq<string>)
    requires |values| == |decls|
    ensures |r| == |values|
    ensures forall i :: 0 <= i < |values| ==> r[i] == render(values[i], decls[i].printBase)
  {
    seq(|values|, i requires 0 <= i < |values| => render(values[i], decls[i].printBase))
  }

  /** A data line: the renderings joined by single spaces, then the trailing
      comment. */
  function DataLine(p: FileProfile, rendered: seq<string>, comment: string): string
    requires CommentSpacingDefined(p, comment)
  {
    Join(rendered) + TrailingComment(p, comment)
  }

  /** A caller-supplied line followed by the trailing comment of profile
      commentFormat. */
  function ArbitraryLine(commentFormat: FileProfile, line: string, comment: string): string
    requires CommentSpacingDefined(commentFormat, comment)
  {
    line + TrailingComment(commentFormat, comment)
  }

  /** A stand-alone comment line. */
  function CommentLine(p: FileProfile, comment: string): string
  {
    p.commentIndicator + " " + comment
  }

  /** A comment line is the comment indicator, one space and the comment,
      whatever the line-end comment settings. */
  lemma CommentLineLayout(p: FileProfile, comment: string)
    ensures var r, ind := CommentLine(p, comment), p.commentIndicator;
      |r| == |ind| + 1 + |comment| && r[..|ind|] == ind && r[|ind|] == ' ' &&
      r[|ind| + 1..] == comment
  {
    var r, ind := CommentLine(p, comment), p.commentIndicator;
    assert r[..|ind|] == ind;
    assert r[|ind| + 1..] == comment;
  }

  /** A data line is the values joined by single spaces, then the trailing
      comment, which is present exactly when line-end comments are enabled
      and the comment is not empty; an arbitrary line is the caller's text
      followed by the same trailing comment, and nothing when the comment is
      empty. */
  lemma LineLayout(p: FileProfile, rendered: seq<string>, line: string, comment: string)
    requires CommentSpacingDefined(p, comment)
    ensures var r, j, tc := DataLine(p, rendered, comment), Join(rendered), TrailingComment(p, comment);
      |r| == |j| + |tc| && r[..|j|] == j && r[|j|..] == tc &&
      (|r| > |j| <==> p.enableLineEndComments && comment != "")
    ensures var r, tc := ArbitraryLine(p, line, comment), TrailingComment(p, comment);
      |r| == |line| + |tc| && r[..|line|] == line && r[|line|..] == tc &&
      (comment == "" ==> r == line)
  {
    var j, tc := Join(rendered), TrailingComment(p, comment);
    assert (j + tc)[..|j|] == j && (j + tc)[|j|..] == tc;
    assert (line + tc)[..|line|] == line && (line + tc)[|line|..] == tc;
  }

  // ---------------------------------------------------------------------------
  // Caption repetition and the output of one row (WriteTVLine)
  // ---------------------------------------------------------------------------

  /** The caption block is written again before row count (the number of rows
      written so far) when count is a positive multiple of interval. */
  predicate CaptionDue(count: int, interval: int)
    requires count > 0 ==> interval != 0
  {
    count > 0 && count % interval == 0
  }

  /** Between two caption blocks exactly interval - 1 rows go without one:
      after a row that had them (or row 0, which follows the header's), the
      next interval - 1 rows do not, and the one after them does. */
  lemma CaptionPeriod(count: int, interval: int, j: int)
    requires count >= 0 && interval > 0 && 0 < j < interval
    requires count == 0 || CaptionDue(count, interval)
    ensures !CaptionDue(count + j, interval)
    ensures CaptionDue(count + interval, interval)
  {
    var q := count / interval;
    assert count == q * interval;
    assert count + j == q * interval + j;
    ModOfMultiplePlus(q, interval, j);
    ModOfMultiplePlus(q + 1, interval, 0);
    assert count + interval == (q + 1) * interval + 0;
  }

  lemma ModOfMultiplePlus(q: int, n: int, j: int)
    requires n > 0 && 0 <= j < n
    ensures (q * n + j) % n == j
  {
    var r := q * n + j;
    var d, m := r / n, r % n;
    assert r == d * n + m;
    MulSub(d, q, n);
    assert (d - q) * n == j - m;
    if d - q > 0 {
      MulAtLeast(d - q, n);
    } else if d - q < 0 {
      MulAtLeast(q - d, n);
      MulSub(q, d, n);
    }
  }

  lemma MulNeg(a: int, c: int)
    ensures (-a) * c == -(a * c)
  {
  }

  lemma MulSucc(k: int, c: int)
    ensures (k + 1) * c == k * c + c
  {
  }

  lemma MulSub(a: int, b: int, c: int)
    ensures (a - b) * c == a * c - b * c
  {
  }

  lemma MulAtLeast(a: int, n: int)
    requires a >= 1 && n > 0
    ensures a * n >= n
  {
  }

  /** What one successful WriteTVLine call writes: the caption block when it
      is due, then the data line, unless the profile declares no signal. */
  function TVLineOutput(p: FileProfile, rendered: seq<string>, comment: string, count: int): seq<string>
    requires RowDefined(p, comment, count) && |rendered| == |p.tvDeclarations|
  {
    (if CaptionDue(count, p.signalCaptionInterval) then CaptionLines(p) else []) +
    (if |rendered| == 0 then [] else [DataLine(p, rendered, comment)])
  }

  /** One row writes the caption block first exactly when it is due, then
      exactly one data line, or no line at all when no signal is declared. */
  lemma TVLineOutputShape(p: FileProfile, rendered: seq<string>, comment: string, count: int)
    requires RowDefined(p, comment, count) && |rendered| == |p.tvDeclarations|
    ensures var r, due := TVLineOutput(p, rendered, comment, count), CaptionDue(count, p.signalCaptionInterval);
      (due ==> |r| == |CaptionLines(p)| + (if |rendered| == 0 then 0 else 1) &&
               r[..|CaptionLines(p)|] == CaptionLines(p)) &&
      (!due ==> |r| == (if |rendered| == 0 then 0 else 1)) &&
      (|rendered| > 0 ==> r[|r| - 1] == DataLine(p, rendered, comment))
  {
  }

  // ---------------------------------------------------------------------------
  // Alignment of captions with the values below them
  // ---------------------------------------------------------------------------

  /** Rendered values that take exactly their column's digit count. */
  predicate FitsColumns(p: FileProfile, rendered: seq<string>)
    requires CaptionsDefined(p)
  {
    |rendered| == |p.tvDeclarations| &&
    forall j :: 0 <= j < |rendered| ==> |rendered[j]| == ColumnDigits(p, j)
  }

  lemma {:induction false} TotalLengthIsSumDigits(p: FileProfile, rendered: seq<string>, n: nat)
    requires CaptionsDefined(p) && FitsColumns(p, rendered) && n <= |rendered|
    ensures TotalLength(rendered[..n]) == SumDigits(p, n)
  {
    if n > 0 {
      TotalLengthIsSumDigits(p, rendered, n - 1);
      assert rendered[..n][..n - 1] == rendered[..n - 1];
    }
  }

  /** With a gap of one space between signals, the caption of column i >= 1
      starts in the same character position as the value of column i in a
      data line whose values take their digit counts. */
  lemma CaptionAlignsWithValue(p: FileProfile, rendered: seq<string>, i: nat)
    requires CaptionsDefined(p) && p.signalDistance == 1
    requires FitsColumns(p, rendered) && 0 < i < |rendered|
    ensures |PreCaption(p, i)| + |rendered[i]| <= |Join(rendered)|
    ensures Join(rendered)[|PreCaption(p, i)|..|PreCaption(p, i)| + |rendered[i]|] == rendered[i]
  {
    PreCaptionLength(p, i);
    TotalLengthIsSumDigits(p, rendered, i);
    JoinLength(rendered[..i]);
    JoinColumn(rendered, i);
  }

  /** A data line separates values by one space whatever signalDistance is,
      while the captions are spaced by signalDistance: caption i >= 1 starts
      i * (signalDistance - 1) characters after the value of column i, so
      the two line up for every column only when signalDistance is 1. */
  lemma CaptionShiftFromValue(p: FileProfile, rendered: seq<string>, i: nat)
    requires CaptionsDefined(p) && FitsColumns(p, rendered) && 0 < i < |rendered|
    ensures |PreCaption(p, i)| == (|Join(rendered[..i])| + 1) + i * (p.signalDistance - 1)
  {
    PreCaptionLength(p, i);
    TotalLengthIsSumDigits(p, rendered, i);
    JoinLength(rendered[..i]);
    MulSub(p.signalDistance, 1, i);
  }

  /** In a commented data line the comment indicator starts commentSpaces
      characters after the last value. */
  lemma DataLineCommentAt(p: FileProfile, rendered: seq<string>, comment: string)
    requires CommentSpacingDefined(p, comment) && p.enableLineEndComments && comment != ""
    ensures var at := |Join(rendered)| + p.commentSpaces;
      at + |p.commentIndicator| <= |DataLine(p, rendered, comment)| &&
      DataLine(p, rendered, comment)[at..at + |p.commentIndicator|] == p.commentIndicator
  {
    var j, tc := Join(rendered), TrailingComment(p, comment);
    var cs, ind := p.commentSpaces, p.commentIndicator;
    TrailingCommentLayout(p, comment);
    assert DataLine(p, rendered, comment) == j + tc;
    SliceOfConcat(j, tc, cs, cs + |ind|);
  }

  lemma SliceOfConcat(a: string, b: string, lo: nat, hi: nat)
    requires lo <= hi <= |b|
    ensures (a + b)[|a| + lo..|a| + hi] == b[lo..hi]
  {
  }

  /** The trailer lines hold the comments-column header and the column
      indicator after the trailer prefix and commentSpaces - signalDistance
      spaces. */
  lemma TrailerLinesAt(p: FileProfile)
    requires CaptionsDefined(p) && p.enableLineEndComments
    ensures var t, at := TrailerLines(p), |PreCaption(p, |p.tvDeclarations|)| + p.commentSpaces - p.signalDistance;
      |t| == 2 && at <= |t[0]| && at <= |t[1]| &&
      t[0][at..] == p.commentsColumnHeader && t[1][at..] == p.columnIndicator
  {
    var pre := PreCaption(p, |p.tvDeclarations|);
    var gap := Spaces(p.commentSpaces - p.signalDistance);
    var t := TrailerLines(p);
    assert t[0] == (pre + gap) + p.commentsColumnHeader;
    assert t[1] == (pre + gap) + p.columnIndicator;
  }

  /** With a gap of one space between signals, the comments-column header and
      the column indicator of the trailer start in the same position as the
      comment indicator of a commented data line. */
  lemma CommentHeaderAligns(p: FileProfile, rendered: seq<string>, comment: string)
    requires CaptionsDefined(p) && CommentSpacingDefined(p, comment)
    requires p.signalDistance == 1 && p.enableLineEndComments
    requires FitsColumns(p, rendered) && |rendered| > 0 && comment != ""
    ensures var t := TrailerLines(p);
      var at := |PreCaption(p, |rendered|)| + p.commentSpaces - p.signalDistance;
      at == |Join(rendered)| + p.commentSpaces &&
      t[0][at..] == p.commentsColumnHeader && t[1][at..] == p.columnIndicator &&
      DataLine(p, rendered, comment)[at..at + |p.commentIndicator|] == p.commentIndicator
  {
    var n := |rendered|;
    PreCaptionLength(p, n);
    TotalLengthIsSumDigits(p, rendered, n);
    assert rendered[..n] == rendered;
    JoinLength(rendered);
    TrailerLinesAt(p);
    DataLineCommentAt(p, rendered, comment);
  }
}
