/** The configuration of one test vector file (TVFileSettings): descriptive
    header fields, the comment and column format, and the ordered list of
    signal declarations. The source's object is mutable; the generator keeps
    a copy of it, which the model gives as the value FileProfile. */
module Settings {
  import opened Signals

  /** A copy of every field of a settings object. */
  datatype FileProfile = FileProfile(
    filePath: string,
    projectName: string,
    content: string,
    author: string,
    commentIndicator: string,
    columnIndicator: string,
    signalDistance: int,
    commentSpaces: int,
    enableLineEndComments: bool,
    enablePreLineComments: bool,
    commentsColumnHeader: string,
    signalCaptionInterval: int,
    dontCareIdentifier: char,
    tvDeclarations: seq<SignalDeclaration>)

  /** The comment indicator every constructor but the six-argument one uses. */
  const DefaultCommentIndicator := "%"

  /** The format fields the default constructor sets. The integer and
      character fields no constructor sets (signalDistance,
      signalCaptionInterval, dontCareIdentifier) are not constrained. */
  predicate HasDefaultFormat(p: FileProfile)
  {
    p.commentIndicator == DefaultCommentIndicator && p.commentSpaces == 1 &&
    p.enableLineEndComments && !p.enablePreLineComments &&
    p.columnIndicator == "" && p.commentsColumnHeader == "" &&
    p.tvDeclarations == []
  }

  class TVFileSettings {
    var filePath: string
    var projectName: string
    var content: string
    var author: string
    var commentIndicator: string
    var columnIndicator: string
    var signalDistance: int
    var commentSpaces: int
    var enableLineEndComments: bool
    var enablePreLineComments: bool
    var commentsColumnHeader: string
    var signalCaptionInterval: int
    var dontCareIdentifier: char
    var tvDeclarations: seq<SignalDeclaration>

    /** The object's fields as a value: what the generator copies. */
    function Snapshot(): FileProfile
      reads this
    {
      FileProfile(filePath, projectName, content, author, commentIndicator,
                  columnIndicator, signalDistance, commentSpaces,
                  enableLineEndComments, enablePreLineComments,
                  commentsColumnHeader, signalCaptionInterval,
                  dontCareIdentifier, tvDeclarations)
    }

    /** Default constructor: empty descriptive fields, comment indicator "%",
        one space before line-end comments, line-end comments on, pre-line
        comments off. The string members the source leaves to their own
        default constructor are empty; signalDistance, signalCaptionInterval
        and dontCareIdentifier are left unset, as in the source. */
    constructor ()
      ensures filePath == "" && projectName == "" && content == "" && author == ""
      ensures HasDefaultFormat(Snapshot())
    {
      filePath, projectName, content, author := "", "", "", "";
      commentIndicator, commentSpaces := DefaultCommentIndicator, 1;
      enableLineEndComments, enablePreLineComments := true, false;
      columnIndicator, commentsColumnHeader := "", "";
      tvDeclarations := [];
    }

    /** Stores path, author, content and project as given, with the default
        comment format. */
    constructor WithDescription(filePath: string, author: string, content: string,
                                projectName: string)
      ensures this.filePath == filePath && this.author == author
      ensures this.content == content && this.projectName == projectName
      ensures HasDefaultFormat(Snapshot())
    {
      commentIndicator, commentSpaces := DefaultCommentIndicator, 1;
      enableLineEndComments, enablePreLineComments := true, false;
      columnIndicator, commentsColumnHeader := "", "";
      tvDeclarations := [];
      this.filePath := filePath;
      this.author := author;
      this.content := content;
      this.projectName := projectName;
    }

    /** Stores the descriptive fields, the comment indicator and the number of
        spaces before a line-end comment as given; line-end comments on,
        pre-line comments off. */
    constructor WithCommentFormat(filePath: string, author: string, content: string,
                                  projectName: string, commentIndicator: string,
                                  commentSpaces: int)
      ensures this.filePath == filePath && this.author == author
      ensures this.content == content && this.projectName == projectName
      ensures this.commentIndicator == commentIndicator
      ensures this.commentSpaces == commentSpaces
      ensures enableLineEndComments && !enablePreLineComments
      ensures columnIndicator == "" && commentsColumnHeader == "" && tvDeclarations == []
    {
      enableLineEndComments, enablePreLineComments := true, false;
      columnIndicator, commentsColumnHeader := "", "";
      tvDeclarations := [];
      this.filePath := filePath;
      this.author := author;
      this.content := content;
      this.projectName := projectName;
      this.commentIndicator := commentIndicator;
      this.commentSpaces := commentSpaces;
    }

    method SetFilePath(fileName: string)
      modifies this`filePath
      ensures Snapshot() == old(Snapshot()).(filePath := fileName)
    {
      filePath := fileName;
    }

    method SetProjectName(projectName: string)
      modifies this`projectName
      ensures Snapshot() == old(Snapshot()).(projectName := projectName)
    {
      this.projectName := projectName;
    }

    method SetContent(content: string)
      modifies this`content
      ensures Snapshot() == old(Snapshot()).(content := content)
    {
      this.content := content;
    }

    method SetAuthor(author: string)
      modifies this`author
      ensures Snapshot() == old(Snapshot()).(author := author)
    {
      this.author := author;
    }

    method EnableLineEndComments(enable: bool)
      modifies this`enableLineEndComments
      ensures Snapshot() == old(Snapshot()).(enableLineEndComments := enable)
    {
      enableLineEndComments := enable;
    }

    method EnablePreLineComments(enable: bool)
      modifies this`enablePreLineComments
      ensures Snapshot() == old(Snapshot()).(enablePreLineComments := enable)
    {
      enablePreLineComments := enable;
    }

    /** Replaces the whole declaration list. */
    method SetTVDeclarations(declarations: seq<SignalDeclaration>)
      modifies this`tvDeclarations
      ensures Snapshot() == old(Snapshot()).(tvDeclarations := declarations)
    {
      tvDeclarations := declarations;
    }

    /** Appends one declaration at the end; nothing is rejected, neither a
        duplicate nor a zero-width signal. */
    method AddSignal(declaration: SignalDeclaration)
      modifies this`tvDeclarations
      ensures tvDeclarations == old(tvDeclarations) + [declaration]
      ensures |tvDeclarations| == |old(tvDeclarations)| + 1
      ensures tvDeclarations[..|old(tvDeclarations)|] == old(tvDeclarations)
      ensures Snapshot() == old(Snapshot()).(tvDeclarations := tvDeclarations)
    {
      tvDeclarations := tvDeclarations + [declaration];
    }
  }

  /** The list left by one AddSignal call per element of added, first element
      first, starting from start (the empty list for a fresh settings object):
      it holds start followed by the added declarations in call order. */
  function AddSignals(start: seq<SignalDeclaration>, added: seq<SignalDeclaration>): (r: seq<SignalDeclaration>)
    decreases |added|
    ensures |r| == |start| + |added|
    ensures r[..|start|] == start
    ensures forall i :: 0 <= i < |added| ==> r[|start| + i] == added[i]
  {
    if |added| == 0 then start else AddSignals(start + [added[0]], added[1..])
  }

  /** Appending declarations one call at a time gives the start list
      followed by the added declarations. */
  lemma AddSignalsIsAppend(start: seq<SignalDeclaration>, added: seq<SignalDeclaration>)
    ensures AddSignals(start, added) == start + added
  {
    var r := AddSignals(start, added);
    assert forall i :: 0 <= i < |start| ==> r[i] == r[..|start|][i];
  }

  /** One AddSignal call per element of added, first element first: the
      declarations arrive in call order and no other field changes. */
  method AddAllSignals(settings: TVFileSettings, added: seq<SignalDeclaration>)
    modifies settings`tvDeclarations
    ensures settings.tvDeclarations == AddSignals(old(settings.tvDeclarations), added)
    ensures settings.Snapshot() == old(settings.Snapshot()).(tvDeclarations := settings.tvDeclarations)
  {
    ghost var start := settings.tvDeclarations;
    for i := 0 to |added|
      invariant settings.tvDeclarations == start + added[..i]
      invariant settings.Snapshot() == old(settings.Snapshot()).(tvDeclarations := settings.tvDeclarations)
    {
      settings.AddSignal(added[i]);
      assert added[..i + 1] == added[..i] + [added[i]];
    }
    assert added[..|added|] == added;
    AddSignalsIsAppend(start, added);
  }
}
