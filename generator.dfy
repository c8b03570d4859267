/** The public face of the generator: one object that owns three output
    streams (the combined test vector file, the stimuli file and the
    expected responses file), a copy of the settings of each, a row counter
    per stream and the mode that decides which of them is in use. */
module Generator {
  import opened Signals
  import opened Settings
  import opened Format
  import opened Streams
  import opened Writers

  class TVGenerator {
    var isSingleFileBased: bool
    var testVectorCount: int
    var stimuliCount: int
    var expRspCount: int
    const tvFile: OutStream
    const stimFile: OutStream
    const expRspFile: OutStream
    var tvFileSettings: FileProfile
    var stimFileSettings: FileProfile
    var expRspFileSettings: FileProfile

    /** The three streams are different objects and each counter counts
        rows, so it never goes below zero. */
    predicate Valid()
      reads this
    {
      tvFile != stimFile && tvFile != expRspFile && stimFile != expRspFile &&
      testVectorCount >= 0 && stimuliCount >= 0 && expRspCount >= 0
    }

    /** A generator in single-file mode with all counters at zero, three
        streams no file has been opened on, and default-constructed
        settings for each of them. */
    constructor ()
      ensures Valid()
      ensures isSingleFileBased
      ensures testVectorCount == 0 && stimuliCount == 0 && expRspCount == 0
      ensures fresh(tvFile) && fresh(stimFile) && fresh(expRspFile)
      ensures tvFile.lines == [] && !tvFile.isOpen && !tvFile.failed
      ensures stimFile.lines == [] && !stimFile.isOpen && !stimFile.failed
      ensures expRspFile.lines == [] && !expRspFile.isOpen && !expRspFile.failed
      ensures HasDefaultFormat(tvFileSettings) && HasDefaultFormat(stimFileSettings) &&
              HasDefaultFormat(expRspFileSettings)
      ensures tvFileSettings.filePath == "" && tvFileSettings.projectName == "" &&
              tvFileSettings.content == "" && tvFileSettings.author == ""
      ensures stimFileSettings.filePath == "" && stimFileSettings.projectName == "" &&
              stimFileSettings.content == "" && stimFileSettings.author == ""
      ensures expRspFileSettings.filePath == "" && expRspFileSettings.projectName == "" &&
              expRspFileSettings.content == "" && expRspFileSettings.author == ""
    {
      isSingleFileBased := true;
      testVectorCount, stimuliCount, expRspCount := 0, 0, 0;
      tvFile := new OutStream();
      stimFile := new OutStream();
      expRspFile := new OutStream();
      var tv := new TVFileSettings();
      var stim := new TVFileSettings();
      var expRsp := new TVFileSettings();
      tvFileSettings, stimFileSettings, expRspFileSettings := tv.Snapshot(), stim.Snapshot(), expRsp.Snapshot();
    }

    /** Writes the header of every stream the current mode uses; created is
        the time stamp the source reads from the clock. */
    method WriteTVFileHeader(created: string)
      requires Valid()
      requires isSingleFileBased ==> CaptionsDefined(tvFileSettings)
      requires !isSingleFileBased ==> CaptionsDefined(stimFileSettings) && CaptionsDefined(expRspFileSettings)
      modifies tvFile`lines, stimFile`lines, expRspFile`lines
      ensures isSingleFileBased ==>
        tvFile.lines == old(tvFile.lines) +
          (if tvFile.Writable() then HeaderLines(tvFileSettings, created) else []) &&
        stimFile.lines == old(stimFile.lines) && expRspFile.lines == old(expRspFile.lines)
      ensures !isSingleFileBased ==>
        tvFile.lines == old(tvFile.lines) &&
        stimFile.lines == old(stimFile.lines) +
          (if stimFile.Writable() then HeaderLines(stimFileSettings, created) else []) &&
        expRspFile.lines == old(expRspFile.lines) +
          (if expRspFile.Writable() then HeaderLines(expRspFileSettings, created) else [])
    {
      if isSingleFileBased {
        Writers.WriteTVFileHeader(tvFile, tvFileSettings, created);
      } else {
        Writers.WriteTVFileHeader(stimFile, stimFileSettings, created);
        Writers.WriteTVFileHeader(expRspFile, expRspFileSettings, created);
      }
    }

    /** Single-file initialisation: copies the settings, opens the combined
        file and writes its header. The counters are left as they are. */
    method Initialize(settings: TVFileSettings, created: string)
      requires Valid()
      requires CaptionsDefined(settings.Snapshot())
      modifies this`isSingleFileBased, this`tvFileSettings, tvFile, stimFile`lines, expRspFile`lines
      ensures Valid()
      ensures stimFile.lines == old(stimFile.lines) && expRspFile.lines == old(expRspFile.lines)
      ensures isSingleFileBased && tvFileSettings == settings.Snapshot()
      ensures tvFile.isOpen && tvFile.failed == old(tvFile.isOpen)
      ensures tvFile.lines == old(tvFile.lines) +
        (if tvFile.Writable() then HeaderLines(tvFileSettings, created) else [])
    {
      isSingleFileBased := true;
      tvFileSettings := settings.Snapshot();
      tvFile.Open();
      WriteTVFileHeader(created);
    }

    /** Two-file initialisation: copies both settings, opens the stimuli and
        the expected responses file, then writes both headers. */
    method InitializeDual(stimSettings: TVFileSettings, expRspSettings: TVFileSettings, created: string)
      requires Valid()
      requires CaptionsDefined(stimSettings.Snapshot()) && CaptionsDefined(expRspSettings.Snapshot())
      modifies this`isSingleFileBased, this`stimFileSettings, this`expRspFileSettings, stimFile, expRspFile,
               tvFile`lines
      ensures Valid()
      ensures tvFile.lines == old(tvFile.lines)
      ensures !isSingleFileBased
      ensures stimFileSettings == stimSettings.Snapshot() && expRspFileSettings == expRspSettings.Snapshot()
      ensures stimFile.isOpen && stimFile.failed == old(stimFile.isOpen)
      ensures expRspFile.isOpen && expRspFile.failed == old(expRspFile.isOpen)
      ensures stimFile.lines == old(stimFile.lines) +
        (if stimFile.Writable() then HeaderLines(stimFileSettings, created) else [])
      ensures expRspFile.lines == old(expRspFile.lines) +
        (if expRspFile.Writable() then HeaderLines(expRspFileSettings, created) else [])
    {
      isSingleFileBased := false;
      stimFileSettings := stimSettings.Snapshot();
      expRspFileSettings := expRspSettings.Snapshot();
      stimFile.Open();
      expRspFile.Open();
      WriteTVFileHeader(created);
    }

    /** Closes every stream whose state is still good. Afterwards no stream
        accepts a write, and a stream that was never opened or had already
        failed ends up failed. */
    method Finalize()
      requires Valid()
      modifies tvFile`isOpen, tvFile`failed, stimFile`isOpen, stimFile`failed,
               expRspFile`isOpen, expRspFile`failed
      ensures Valid()
      ensures !tvFile.Writable() && !stimFile.Writable() && !expRspFile.Writable()
      ensures old(tvFile.failed) ==> tvFile.isOpen == old(tvFile.isOpen) && tvFile.failed
      ensures !old(tvFile.failed) ==> !tvFile.isOpen && tvFile.failed == !old(tvFile.isOpen)
      ensures old(stimFile.failed) ==> stimFile.isOpen == old(stimFile.isOpen) && stimFile.failed
      ensures !old(stimFile.failed) ==> !stimFile.isOpen && stimFile.failed == !old(stimFile.isOpen)
      ensures old(expRspFile.failed) ==> expRspFile.isOpen == old(expRspFile.isOpen) && expRspFile.failed
      ensures !old(expRspFile.failed) ==> !expRspFile.isOpen && expRspFile.failed == !old(expRspFile.isOpen)
    {
      if !tvFile.failed {
        tvFile.Close();
      }
      if !stimFile.failed {
        stimFile.Close();
      }
      if !expRspFile.failed {
        expRspFile.Close();
      }
    }

    /** Writes one row to the combined file; refused on a two-file
        generator before anything changes. */
    method WriteTestVectorLine<V>(values: seq<V>, render: (V, int) -> string, comment: string)
      returns (r: Result<int>)
      requires Valid()
      requires isSingleFileBased && |values| == |tvFileSettings.tvDeclarations| ==>
        RowDefined(tvFileSettings, comment, testVectorCount)
      modifies this`testVectorCount, tvFile`lines
      ensures Valid()
      ensures !isSingleFileBased ==>
        r == Err(ModeMismatch) && testVectorCount == old(testVectorCount) && tvFile.lines == old(tvFile.lines)
      ensures isSingleFileBased && |values| != |tvFileSettings.tvDeclarations| ==>
        r == Err(CardinalityMismatch) && testVectorCount == old(testVectorCount) &&
        tvFile.lines == old(tvFile.lines)
      ensures isSingleFileBased && |values| == |tvFileSettings.tvDeclarations| ==>
        r == Ok(0) && testVectorCount == old(testVectorCount) + 1 &&
        tvFile.lines == old(tvFile.lines) +
          (if tvFile.Writable()
           then TVLineOutput(tvFileSettings, RenderRow(tvFileSettings.tvDeclarations, values, render),
                             comment, old(testVectorCount))
           else [])
    {
      if !isSingleFileBased {
        return Err(ModeMismatch);
      }
      r, testVectorCount := WriteTVLine(tvFile, tvFileSettings, values, render, comment, testVectorCount);
    }

    /** Writes one row to the stimuli file; refused on a single-file
        generator before anything changes. */
    method WriteStimuliLine<V>(values: seq<V>, render: (V, int) -> string, comment: string)
      returns (r: Result<int>)
      requires Valid()
      requires !isSingleFileBased && |values| == |stimFileSettings.tvDeclarations| ==>
        RowDefined(stimFileSettings, comment, stimuliCount)
      modifies this`stimuliCount, stimFile`lines
      ensures Valid()
      ensures isSingleFileBased ==>
        r == Err(ModeMismatch) && stimuliCount == old(stimuliCount) && stimFile.lines == old(stimFile.lines)
      ensures !isSingleFileBased && |values| != |stimFileSettings.tvDeclarations| ==>
        r == Err(CardinalityMismatch) && stimuliCount == old(stimuliCount) &&
        stimFile.lines == old(stimFile.lines)
      ensures !isSingleFileBased && |values| == |stimFileSettings.tvDeclarations| ==>
        r == Ok(0) && stimuliCount == old(stimuliCount) + 1 &&
        stimFile.lines == old(stimFile.lines) +
          (if stimFile.Writable()
           then TVLineOutput(stimFileSettings, RenderRow(stimFileSettings.tvDeclarations, values, render),
                             comment, old(stimuliCount))
           else [])
    {
      if isSingleFileBased {
        return Err(ModeMismatch);
      }
      r, stimuliCount := WriteTVLine(stimFile, stimFileSettings, values, render, comment, stimuliCount);
    }

    /** Writes one row to the expected responses file; refused on a
        single-file generator before anything changes. */
    method WriteExpRspLine<V>(values: seq<V>, render: (V, int) -> string, comment: string)
      returns (r: Result<int>)
      requires Valid()
      requires !isSingleFileBased && |values| == |expRspFileSettings.tvDeclarations| ==>
        RowDefined(expRspFileSettings, comment, expRspCount)
      modifies this`expRspCount, expRspFile`lines
      ensures Valid()
      ensures isSingleFileBased ==>
        r == Err(ModeMismatch) && expRspCount == old(expRspCount) && expRspFile.lines == old(expRspFile.lines)
      ensures !isSingleFileBased && |values| != |expRspFileSettings.tvDeclarations| ==>
        r == Err(CardinalityMismatch) && expRspCount == old(expRspCount) &&
        expRspFile.lines == old(expRspFile.lines)
      ensures !isSingleFileBased && |values| == |expRspFileSettings.tvDeclarations| ==>
        r == Ok(0) && expRspCount == old(expRspCount) + 1 &&
        expRspFile.lines == old(expRspFile.lines) +
          (if expRspFile.Writable()
           then TVLineOutput(expRspFileSettings, RenderRow(expRspFileSettings.tvDeclarations, values, render),
                             comment, old(expRspCount))
           else [])
    {
      if isSingleFileBased {
        return Err(ModeMismatch);
      }
      r, expRspCount := WriteTVLine(expRspFile, expRspFileSettings, values, render, comment, expRspCount);
    }

    /** Writes a caller-supplied line, with an optional line-end comment, to
        the combined file; refused on a two-file generator. */
    method WriteArbitraryTVLine(line: string, comment: string) returns (r: Result<()>)
      requires isSingleFileBased ==> CommentSpacingDefined(tvFileSettings, comment)
      modifies tvFile`lines
      ensures !isSingleFileBased ==> r == Err(ModeMismatch) && tvFile.lines == old(tvFile.lines)
      ensures isSingleFileBased ==>
        r == Ok(()) &&
        tvFile.lines == old(tvFile.lines) +
          (if tvFile.Writable() then [ArbitraryLine(tvFileSettings, line, comment)] else [])
    {
      if !isSingleFileBased {
        return Err(ModeMismatch);
      }
      Writers.WriteArbitraryTVLine(tvFile, tvFileSettings, tvFileSettings, line, comment);
      r := Ok(());
    }

    /** The one-argument form: no comment. */
    method WriteArbitraryTVLineWithoutComment(line: string) returns (r: Result<()>)
      modifies tvFile`lines
      ensures !isSingleFileBased ==> r == Err(ModeMismatch) && tvFile.lines == old(tvFile.lines)
      ensures isSingleFileBased ==>
        r == Ok(()) && tvFile.lines == old(tvFile.lines) + (if tvFile.Writable() then [line] else [])
    {
      r := WriteArbitraryTVLine(line, "");
      assert isSingleFileBased ==> ArbitraryLine(tvFileSettings, line, "") == line;
    }

    /** Writes a caller-supplied line to the stimuli file; refused on a
        single-file generator. As in the source, the comment is formatted
        with the combined file's settings, not the stimuli file's. */
    method WriteArbitraryStimuliLine(line: string, comment: string) returns (r: Result<()>)
      requires !isSingleFileBased ==> CommentSpacingDefined(tvFileSettings, comment)
      modifies stimFile`lines
      ensures isSingleFileBased ==> r == Err(ModeMismatch) && stimFile.lines == old(stimFile.lines)
      ensures !isSingleFileBased ==>
        r == Ok(()) &&
        stimFile.lines == old(stimFile.lines) +
          (if stimFile.Writable() then [ArbitraryLine(tvFileSettings, line, comment)] else [])
    {
      if isSingleFileBased {
        return Err(ModeMismatch);
      }
      Writers.WriteArbitraryTVLine(stimFile, stimFileSettings, tvFileSettings, line, comment);
      r := Ok(());
    }

    /** The one-argument form: no comment. */
    method WriteArbitraryStimuliLineWithoutComment(line: string) returns (r: Result<()>)
      modifies stimFile`lines
      ensures isSingleFileBased ==> r == Err(ModeMismatch) && stimFile.lines == old(stimFile.lines)
      ensures !isSingleFileBased ==>
        r == Ok(()) && stimFile.lines == old(stimFile.lines) + (if stimFile.Writable() then [line] else [])
    {
      r := WriteArbitraryStimuliLine(line, "");
      assert !isSingleFileBased ==> ArbitraryLine(tvFileSettings, line, "") == line;
    }

    /** Writes a caller-supplied line to the expected responses file;
        refused on a single-file generator. The comment is formatted with
        the combined file's settings, as for the stimuli file. */
    method WriteArbitraryExpRspLine(line: string, comment: string) returns (r: Result<()>)
      requires !isSingleFileBased ==> CommentSpacingDefined(tvFileSettings, comment)
      modifies expRspFile`lines
      ensures isSingleFileBased ==> r == Err(ModeMismatch) && expRspFile.lines == old(expRspFile.lines)
      ensures !isSingleFileBased ==>
        r == Ok(()) &&
        expRspFile.lines == old(expRspFile.lines) +
          (if expRspFile.Writable() then [ArbitraryLine(tvFileSettings, line, comment)] else [])
    {
      if isSingleFileBased {
        return Err(ModeMismatch);
      }
      Writers.WriteArbitraryTVLine(expRspFile, expRspFileSettings, tvFileSettings, line, comment);
      r := Ok(());
    }

    /** The one-argument form: no comment. */
    method WriteArbitraryExpRspLineWithoutComment(line: string) returns (r: Result<()>)
      modifies expRspFile`lines
      ensures isSingleFileBased ==> r == Err(ModeMismatch) && expRspFile.lines == old(expRspFile.lines)
      ensures !isSingleFileBased ==>
        r == Ok(()) && expRspFile.lines == old(expRspFile.lines) + (if expRspFile.Writable() then [line] else [])
    {
      r := WriteArbitraryExpRspLine(line, "");
      assert !isSingleFileBased ==> ArbitraryLine(tvFileSettings, line, "") == line;
    }

    /** Comment lines are written in either mode: a comment line to a
        stream the mode does not use lands only if that stream is open. */
    method WriteTVCommentLine(comment: string)
      modifies tvFile`lines
      ensures tvFile.lines == old(tvFile.lines) +
        (if tvFile.Writable() then [CommentLine(tvFileSettings, comment)] else [])
    {
      Writers.WriteTVCommentLine(tvFile, tvFileSettings, comment);
    }

    method WriteStimuliCommentLine(comment: string)
      modifies stimFile`lines
      ensures stimFile.lines == old(stimFile.lines) +
        (if stimFile.Writable() then [CommentLine(stimFileSettings, comment)] else [])
    {
      Writers.WriteTVCommentLine(stimFile, stimFileSettings, comment);
    }

    method WriteExpRspCommentLine(comment: string)
      modifies expRspFile`lines
      ensures expRspFile.lines == old(expRspFile.lines) +
        (if expRspFile.Writable() then [CommentLine(expRspFileSettings, comment)] else [])
    {
      Writers.WriteTVCommentLine(expRspFile, expRspFileSettings, comment);
    }
  }
}
