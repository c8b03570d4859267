/** The private writing routines of TVGenerator. Each takes the stream it
    writes to, as the source passes an ofstream by reference, and appends to
    it exactly the lines the Format module describes. */
module Writers {
  import opened Strings
  import opened Signals
  import opened Settings
  import opened Format
  import opened Streams

  /** The failures the source signals with exceptions. */
  datatype Error =
    | CardinalityMismatch  // a row's value count differs from the declaration count
    | ModeMismatch         // a single-file call on a two-file generator, or vice versa

  datatype Result<T> = Ok(value: T) | Err(error: Error)

  /** The leading string of caption idx, built column by column. */
  method GeneratePreSignalCaptionString(p: FileProfile, idx: nat) returns (r: string)
    requires idx <= |p.tvDeclarations| && CaptionsDefined(p)
    ensures r == PreCaption(p, idx)
  {
    var sigDecls := p.tvDeclarations;
    r := p.commentIndicator;
    for i := 0 to idx
      invariant r == PreCaptionUpTo(p, idx, i)
    {
      var offset := if i == 0 then |p.commentIndicator| else |p.columnIndicator|;
      var widthDigits := ColumnDigits(p, i);
      var segment := Spaces(widthDigits - offset) + Spaces(p.signalDistance);
      if idx > 1 && i != idx - 1 {
        segment := segment + p.columnIndicator;
      }
      assert segment == Segment(p, idx, i);
      r := r + segment;
    }
  }

  /** Writes the caption block. */
  method WriteSignalCaptions(out: OutStream, p: FileProfile)
    requires CaptionsDefined(p)
    modifies out`lines
    ensures out.lines == old(out.lines) + (if out.Writable() then CaptionLines(p) else [])
  {
    ghost var w, start := out.Writable(), out.lines;
    var sigDecls := p.tvDeclarations;
    out.WriteLine(p.commentIndicator);
    for i := 0 to |sigDecls|
      invariant out.lines == start + (if w then [p.commentIndicator] + CaptionNameLines(p, i) else [])
    {
      WriteCaptionNameLine(out, p, i);
      assert CaptionNameLines(p, i + 1) == CaptionNameLines(p, i) + [CaptionNameLine(p, i)];
    }
    WriteCaptionTrailer(out, p);
    assert CaptionLines(p) == [p.commentIndicator] + CaptionNameLines(p, |sigDecls|) + TrailerLines(p);
  }

  /** The body of the caption loop: the pre-caption prefix, the name and
      the optional width suffix for declaration i. */
  method WriteCaptionNameLine(out: OutStream, p: FileProfile, i: int)
    requires CaptionsDefined(p) && 0 <= i < |p.tvDeclarations|
    modifies out`lines
    ensures out.lines == old(out.lines) + (if out.Writable() then [CaptionNameLine(p, i)] else [])
  {
    var sigDecls := p.tvDeclarations;
    var line := GeneratePreSignalCaptionString(p, i);
    line := line + sigDecls[i].name;
    ghost var named := line;
    if sigDecls[i].appendWidthInCaption {
      line := line + " (" + IntToString(sigDecls[i].width) + " bit)";
    }
    assert line == CaptionNameLine(p, i) by {
      assert line == named + WidthSuffix(sigDecls[i]);
    }
    out.WriteLine(line);
  }

  /** The lines after the caption loop: the comments column header and the
      column indicator when line-end comments are enabled, otherwise the
      bare prefix. */
  method WriteCaptionTrailer(out: OutStream, p: FileProfile)
    requires CaptionsDefined(p)
    modifies out`lines
    ensures out.lines == old(out.lines) + (if out.Writable() then TrailerLines(p) else [])
  {
    var sigDecls := p.tvDeclarations;
    var line := GeneratePreSignalCaptionString(p, |sigDecls|);
    if p.enableLineEndComments {
      line := line + Spaces(p.commentSpaces - p.signalDistance);
      out.WriteLine(line + p.commentsColumnHeader);
      line := GeneratePreSignalCaptionString(p, |sigDecls|);
      line := line + Spaces(p.commentSpaces - p.signalDistance);
      line := line + p.columnIndicator;
    }
    out.WriteLine(line);
  }

  /** Writes one labelled header line. */
  method WriteTVFileHeaderEntry(out: OutStream, p: FileProfile, prefix: string, entry: string)
    requires |prefix| <= PrefixWidth
    modifies out`lines
    ensures out.lines == old(out.lines) +
      (if out.Writable() then [HeaderEntry(p.commentIndicator, prefix, entry)] else [])
  {
    out.WriteLine(p.commentIndicator + " " + prefix + Spaces(PrefixWidth - |prefix|) + entry);
  }

  /** Writes the five header entries and the caption block; created is the
      time stamp the source takes from the clock. */
  method WriteTVFileHeader(out: OutStream, p: FileProfile, created: string)
    requires CaptionsDefined(p)
    modifies out`lines
    ensures out.lines == old(out.lines) + (if out.Writable() then HeaderLines(p, created) else [])
  {
    ghost var w, start := out.Writable(), out.lines;
    WriteTVFileHeaderEntry(out, p, "File:", p.filePath);
    WriteTVFileHeaderEntry(out, p, "Author:", p.author);
    WriteTVFileHeaderEntry(out, p, "Project:", p.projectName);
    WriteTVFileHeaderEntry(out, p, "Created:", created);
    WriteTVFileHeaderEntry(out, p, "Content:", p.content);
    ghost var entries := out.lines;
    assert entries == start + (if w then HeaderLines(p, created)[..|HeaderLabels|] else []);
    WriteSignalCaptions(out, p);
    assert HeaderLines(p, created) == HeaderLines(p, created)[..|HeaderLabels|] + CaptionLines(p);
  }

  /** Validates and writes one row; count is the row counter the source
      passes by reference, and newCount its value afterwards. */
  method WriteTVLine<V>(out: OutStream, p: FileProfile, values: seq<V>, render: (V, int) -> string,
                        comment: string, count: int)
    returns (r: Result<int>, newCount: int)
    requires |values| == |p.tvDeclarations| ==> RowDefined(p, comment, count)
    modifies out`lines
    ensures |values| != |p.tvDeclarations| ==>
      r == Err(CardinalityMismatch) && newCount == count && out.lines == old(out.lines)
    ensures |values| == |p.tvDeclarations| ==>
      r == Ok(0) && newCount == count + 1 &&
      out.lines == old(out.lines) +
        (if out.Writable()
         then TVLineOutput(p, RenderRow(p.tvDeclarations, values, render), comment, count)
         else [])
  {
    if |values| != |p.tvDeclarations| {
      return Err(CardinalityMismatch), count;
    }

    if count > 0 && count % p.signalCaptionInterval == 0 {
      WriteSignalCaptions(out, p);
    }
    WriteDataLine(out, p, values, render, comment);
    return Ok(0), count + 1;
  }

  /** The value loop of WriteTVLine: the rendered values joined by single
      spaces, followed by the trailing comment, written once after the
      last value (and not at all for an empty row). */
  method WriteDataLine<V>(out: OutStream, p: FileProfile, values: seq<V>, render: (V, int) -> string,
                          comment: string)
    requires |values| == |p.tvDeclarations|
    requires |values| > 0 ==> CommentSpacingDefined(p, comment)
    modifies out`lines
    ensures out.lines == old(out.lines) +
      (if out.Writable() && |values| > 0
       then [DataLine(p, RenderRow(p.tvDeclarations, values, render), comment)]
       else [])
  {
    ghost var start := out.lines;
    ghost var rendered := RenderRow(p.tvDeclarations, values, render);
    var line := "";
    for sig := 0 to |values|
      invariant sig < |values| ==> line == if sig == 0 then "" else Join(rendered[..sig]) + " "
      invariant out.lines == start +
        (if sig == |values| && sig > 0 && out.Writable() then [DataLine(p, rendered, comment)] else [])
    {
      var baseString := render(values[sig], p.tvDeclarations[sig].printBase);
      assert rendered[..sig + 1][..sig] == rendered[..sig];
      line := line + baseString;
      assert line == Join(rendered[..sig + 1]);
      if sig != |values| - 1 {
        line := line + " ";
      } else {
        ghost var joined := line;
        if p.enableLineEndComments && comment != "" {
          line := line + Spaces(p.commentSpaces) + p.commentIndicator + " " + comment;
        }
        assert rendered[..sig + 1] == rendered;
        assert line == joined + TrailingComment(p, comment);
        out.WriteLine(line);
      }
    }
  }

  /** Writes a caller-supplied line with an optional line-end comment. As in
      the source, the comment format comes from generatorSettings (the
      generator's single-file settings), whichever stream is written to;
      fileSettings, the settings that belong to out, is not read. */
  method WriteArbitraryTVLine(out: OutStream, fileSettings: FileProfile, generatorSettings: FileProfile,
                              line: string, comment: string)
    requires CommentSpacingDefined(generatorSettings, comment)
    modifies out`lines
    ensures out.lines == old(out.lines) +
      (if out.Writable() then [ArbitraryLine(generatorSettings, line, comment)] else [])
  {
    var text := line;
    if generatorSettings.enableLineEndComments && comment != "" {
      text := text + Spaces(generatorSettings.commentSpaces) + generatorSettings.commentIndicator + " " + comment;
    }
    assert text == line + TrailingComment(generatorSettings, comment);
    out.WriteLine(text);
  }

  /** Writes a stand-alone comment line. */
  method WriteTVCommentLine(out: OutStream, p: FileProfile, comment: string)
    modifies out`lines
    ensures out.lines == old(out.lines) + (if out.Writable() then [CommentLine(p, comment)] else [])
  {
    out.WriteLine(p.commentIndicator + " " + comment);
  }
}
