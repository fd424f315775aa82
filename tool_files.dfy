/** The file tools of tools/github/files.go: read, create, update and delete one file of the
    client's repository. Each call parses its input, checks it and makes at most one write. */
module FileTools {
  import opened Results
  import opened Text
  import opened ToolClient
  import GitHubWrapper

  // ================================================================== paths

  const EmptyPath: string := "file path cannot be empty"

  /** Reading and deleting: the trimmed input must not be empty; one leading "/" is then
      dropped, so "/" alone names the root, "". */
  function ExistingPath(input: string): (r: Result<string>)
    ensures r.Err? <==> TrimSpace(input) == ""
    ensures r.Err? ==> r.error == EmptyPath
  {
    var path := TrimSpace(input);
    if path == "" then Err(EmptyPath) else Ok(TrimPrefix(path, "/"))
  }

  /** Creating and updating: one leading "/" is dropped from the trimmed input first, and only
      then is the path checked for being empty. */
  function NewPath(raw: string): (r: Result<string>)
    ensures r.Err? <==> TrimSpace(raw) == "" || TrimSpace(raw) == "/"
    ensures r.Err? ==> r.error == EmptyPath
  {
    var path := TrimPrefix(TrimSpace(raw), "/");
    if path == "" then Err(EmptyPath) else Ok(path)
  }

  /** The two path rules agree on every input except a lone "/" (with any surrounding white
      space), which reading and deleting accept as the root and creating and updating refuse. */
  lemma PathRulesAgree(input: string)
    ensures ExistingPath(input) == NewPath(input) <==> TrimSpace(input) != "/"
    ensures TrimSpace(input) == "/" ==> ExistingPath(input) == Ok("") && NewPath(input) == Err(EmptyPath)
  {
  }

  /** A path without surrounding white space and without a leading "/" is used as it is. */
  lemma PlainPath(path: string)
    requires path != [] && !IsSpace(path[0]) && !IsSpace(path[|path| - 1]) && path[0] != '/'
    ensures ExistingPath(path) == Ok(path) && NewPath(path) == Ok(path)
  {
    assert path[0] !in Spaces && path[|path| - 1] !in Spaces;
    TrimFixed(path, Spaces);
  }

  // ================================================================== reading

  const ReadFailed: string := "failed to read file "
  const DecodeFailed: string := "failed to decode file content: "

  /** The output of a successful read. */
  function Contents(path: string, content: string): string
  {
    "Contents of " + path + ":\n\n" + content
  }

  /** `ReadFileTool.Call`. */
  function ReadFile(input: string, gh: Service): (r: Answer)
    ensures r.Answered? <==>
      (ExistingPath(input).Ok? && gh.contents(ExistingPath(input).value).File?
       && gh.contents(ExistingPath(input).value).content.Ok?)
    ensures r.Answered? ==> var path := ExistingPath(input).value;
      r.text == Contents(path, gh.contents(path).content.value)
    ensures ExistingPath(input).Ok? && gh.contents(ExistingPath(input).value).Directory? ==>
      r == Refuse("file " + ExistingPath(input).value + " not found or is a directory")
    ensures !r.Panicked?
  {
    match ExistingPath(input)
    case Err(e) => Refuse(e)
    case Ok(path) =>
      match gh.contents(path)
      case Unavailable(e) => Refused(Says(e), ReadFailed + path + ": " + e)
      case Directory(_) => Refuse("file " + path + " not found or is a directory")
      case File(Err(e), _) => Refused(Says(e), DecodeFailed + e)
      case File(Ok(content), _) => Answered(Contents(path, content))
  }

  /** The read output gives back the file's content after the header line and the blank line
      that follow the path. */
  lemma ContentsSeparated(path: string, content: string)
    requires '\n' !in path
    ensures var s := Contents(path, content);
      Cut(s, "\n\n") == Some(("Contents of " + path + ":", content))
  {
    var head := "Contents of " + path + ":";
    assert '\n' !in head by {
      assert forall i :: 0 <= i < |head| ==> head[i] != '\n' by {
        forall i | 0 <= i < |head| ensures head[i] != '\n' {
          if 12 <= i < 12 + |path| { assert head[i] == path[i - 12]; }
        }
      }
    }
    CutFresh(head, "\n\n", content);
    assert Contents(path, content) == head + "\n\n" + content;
  }

  // ================================================================== creating

  const CreateFormat: string := "invalid input format: expected 'filepath\\n\\ncontents', got: "
  const CreateFailed: string := "failed to create file "

  /** `CreateFileTool.Call`: the path before the first blank line, the contents after it
      exactly as written. */
  function CreateFile(input: string, gh: Service): (r: Reply)
    ensures Cut(input, "\n\n").None? ==> r == Reply(Refuse(CreateFormat + input), [])
    ensures r.sent != [] ==> var parts := Cut(input, "\n\n").value;
      && NewPath(parts.0).Ok?
      && r.sent == [NewFile(NewPath(parts.0).value, "Create " + NewPath(parts.0).value, parts.1)]
    ensures r.sent == [] ==> r.answer.Refused?
    ensures !r.answer.Panicked?
  {
    match Cut(input, "\n\n")
    case None => Reply(Refuse(CreateFormat + input), [])
    case Some((raw, content)) =>
      match NewPath(raw)
      case Err(e) => Reply(Refuse(e), [])
      case Ok(path) =>
        Send(gh, NewFile(path, "Create " + path, content), CreateFailed + path + ": ",
             "Successfully created file: " + path)
  }

  /** A path, a blank line and contents create that file with exactly those contents, white
      space and blank lines included. */
  lemma CreateFileParts(path: string, content: string, gh: Service)
    requires path != [] && !IsSpace(path[0]) && !IsSpace(path[|path| - 1]) && path[0] != '/'
    requires '\n' !in path
    ensures CreateFile(path + "\n\n" + content, gh).sent == [NewFile(path, "Create " + path, content)]
  {
    PlainPath(path);
    CutFresh(path, "\n\n", content);
  }

  // ================================================================== updating

  const MissingMarkers: string :=
    "invalid format: missing OLD <<<< ... >>>> OLD or NEW <<<< ... >>>> NEW markers"
  const CurrentFailed: string := "failed to get current file content for "
  const CurrentDecodeFailed: string := "failed to decode current file content: "
  const UpdateFailed: string := "failed to update file "

  /** `UpdateFileTool.Call`: the first line names the file, the rest holds the markers. The
      old and new texts come out of the markers as the API wrapper takes them; every
      occurrence of the old text is replaced and the file written back, changed or not. */
  function UpdateFile(input: string, gh: Service): (r: Reply)
    ensures r.sent != [] ==> NewPath(Split(input, '\n')[0]).Ok?
    ensures r.sent != [] && NewPath(Split(input, '\n')[0]).Ok? ==>
      var path := NewPath(Split(input, '\n')[0]).value;
      var x := GitHubWrapper.ExtractEdit(Join(Split(input, '\n')[1..], "\n"));
      && |r.sent| == 1 && r.sent[0].FileUpdate? && r.sent[0].path == path
      && r.sent[0].message == "Update " + path
      && x.Extracted? && gh.contents(path).File? && gh.contents(path).content.Ok?
      && r.sent[0].content == ReplaceAll(gh.contents(path).content.value, x.edit.target, x.edit.repl)
      && r.sent[0].sha == gh.contents(path).sha
    ensures NewPath(Split(input, '\n')[0]).Err? ==> r == Reply(Refuse(EmptyPath), [])
    ensures NewPath(Split(input, '\n')[0]).Ok? ==>
      var path := NewPath(Split(input, '\n')[0]).value;
      var x := GitHubWrapper.ExtractEdit(Join(Split(input, '\n')[1..], "\n"));
      x.Extracted? && gh.contents(path).Directory? ==> r == Reply(Refuse("file " + path + " not found"), [])
  {
    var lines := Split(input, '\n');
    match NewPath(lines[0])
    case Err(e) => Reply(Refuse(e), [])
    case Ok(path) => UpdateAt(path, Join(lines[1..], "\n"), gh)
  }

  /** `UpdateFileTool.Call` once the path is known and the rest of the input joined back. */
  function UpdateAt(path: string, content: string, gh: Service): (r: Reply)
    ensures GitHubWrapper.ExtractEdit(content).NoMarkers? ==> r == Reply(Refuse(MissingMarkers), [])
    ensures GitHubWrapper.ExtractEdit(content).Inverted? ==> r.answer.Panicked? && r.sent == []
    ensures r.sent != [] ==>
      (|r.sent| == 1 && r.sent[0].FileUpdate? && r.sent[0].path == path
       && r.sent[0].message == "Update " + path)
    ensures var x := GitHubWrapper.ExtractEdit(content);
      x.Extracted? && gh.contents(path).Directory? ==> r == Reply(Refuse("file " + path + " not found"), [])
    ensures var x := GitHubWrapper.ExtractEdit(content);
      x.Extracted? && gh.contents(path).Unavailable? ==>
        r == Reply(Refused(Says(gh.contents(path).error), CurrentFailed + path + ": " + gh.contents(path).error), [])
    ensures var x := GitHubWrapper.ExtractEdit(content);
      x.Extracted? && gh.contents(path).File? && gh.contents(path).content.Ok? ==>
        r == WriteBack(path, gh.contents(path).content.value, gh.contents(path).sha, x.edit, gh)
    ensures r.sent != [] ==> gh.contents(path).File? && gh.contents(path).content.Ok?
  {
    match GitHubWrapper.ExtractEdit(content)
    case NoMarkers => Reply(Refuse(MissingMarkers), [])
    case Inverted => Reply(Panicked("slice bounds out of range"), [])
    case Extracted(edit) =>
      match gh.contents(path)
      case Unavailable(e) => Reply(Refused(Says(e), CurrentFailed + path + ": " + e), [])
      case Directory(_) => Reply(Refuse("file " + path + " not found"), [])
      case File(Err(e), _) => Reply(Refused(Says(e), CurrentDecodeFailed + e), [])
      case File(Ok(current), sha) => WriteBack(path, current, sha, edit, gh)
  }

  /** The last step of an update: replace and write, whatever the replacement changed. */
  function WriteBack(path: string, current: string, sha: string, edit: GitHubWrapper.Edit, gh: Service): (r: Reply)
    ensures r.sent == [FileUpdate(path, "Update " + path, ReplaceAll(current, edit.target, edit.repl), sha)]
    ensures r.answer.Answered? <==> gh.send(r.sent[0]).Ok?
  {
    Send(gh, FileUpdate(path, "Update " + path, ReplaceAll(current, edit.target, edit.repl), sha),
         UpdateFailed + path + ": ", "Successfully updated file: " + path)
  }

  /** A path line followed by a well-formed update block rewrites an existing file with every
      occurrence of the block's old text replaced by its new text. Unlike the API wrapper,
      the tool writes even when the old text does not occur and nothing changes. */
  lemma UpdateFileBlock(path: string, rest: string, current: string, sha: string, gh: Service)
    requires path != [] && !IsSpace(path[0]) && !IsSpace(path[|path| - 1]) && path[0] != '/'
    requires '\n' !in path
    requires GitHubWrapper.ExtractEdit(rest).Extracted?
    requires gh.contents(path) == File(Ok(current), sha)
    ensures var e := GitHubWrapper.ExtractEdit(rest).edit;
      UpdateFile(path + "\n" + rest, gh).sent ==
        [FileUpdate(path, "Update " + path, ReplaceAll(current, e.target, e.repl), sha)]
  {
    var input := path + "\n" + rest;
    assert input == path + ['\n'] + rest;
    SplitCons(path, '\n', rest);
    JoinSplit(rest, '\n');
    var lines := Split(input, '\n');
    assert lines[0] == path && Join(lines[1..], "\n") == rest by {
      assert lines[1..] == Split(rest, '\n');
    }
    PlainPath(path);
    assert UpdateFile(input, gh) == UpdateAt(path, rest, gh);
  }

  /** An update whose old text does not occur still writes the file back unchanged. */
  lemma UpdateWritesUnchanged(path: string, rest: string, current: string, sha: string, gh: Service)
    requires path != [] && !IsSpace(path[0]) && !IsSpace(path[|path| - 1]) && path[0] != '/'
    requires '\n' !in path
    requires GitHubWrapper.ExtractEdit(rest).Extracted?
    requires var e := GitHubWrapper.ExtractEdit(rest).edit; e.target != [] && !Contains(current, e.target)
    requires gh.contents(path) == File(Ok(current), sha)
    ensures UpdateFile(path + "\n" + rest, gh).sent == [FileUpdate(path, "Update " + path, current, sha)]
  {
    var e := GitHubWrapper.ExtractEdit(rest).edit;
    UpdateFileBlock(path, rest, current, sha, gh);
    ReplaceAllUnchanged(current, e.target, e.repl);
  }

  /** For instance, a block written `OLD <<<<` old `>>>> OLD` `NEW <<<<` new `>>>> NEW`
      whose texts hold no angle brackets replaces the trimmed old text by the trimmed new
      one. */
  lemma UpdateFileExample(path: string, o: string, n: string, current: string, sha: string, gh: Service)
    requires path != [] && !IsSpace(path[0]) && !IsSpace(path[|path| - 1]) && path[0] != '/'
    requires '\n' !in path
    requires '<' !in o && '>' !in o && '<' !in n && '>' !in n
    requires gh.contents(path) == File(Ok(current), sha)
    ensures UpdateFile(path + "\n" + GitHubWrapper.Block(o, n), gh).sent ==
      [FileUpdate(path, "Update " + path, ReplaceAll(current, TrimSpace(o), TrimSpace(n)), sha)]
  {
    GitHubWrapper.ExtractBlock(o, n);
    UpdateFileBlock(path, GitHubWrapper.Block(o, n), current, sha, gh);
  }

  // ================================================================== deleting

  const DeleteLookupFailed: string := "failed to get file "
  const DeleteFailed: string := "failed to delete file "

  /** `DeleteFileTool.Call`: look the file up for its SHA, then delete it. Its content is
      never decoded, so a file whose content does not decode is deleted all the same. */
  function DeleteFile(input: string, gh: Service): (r: Reply)
    ensures r.sent != [] <==> ExistingPath(input).Ok? && gh.contents(ExistingPath(input).value).File?
    ensures r.sent != [] ==> var path := ExistingPath(input).value;
      r.sent == [FileDeletion(path, "Delete " + path, gh.contents(path).sha)]
    ensures !r.answer.Panicked?
  {
    match ExistingPath(input)
    case Err(e) => Reply(Refuse(e), [])
    case Ok(path) =>
      match gh.contents(path)
      case Unavailable(e) => Reply(Refused(Says(e), DeleteLookupFailed + path + " for deletion: " + e), [])
      case Directory(_) => Reply(Refuse("file " + path + " not found"), [])
      case File(_, sha) =>
        Send(gh, FileDeletion(path, "Delete " + path, sha), DeleteFailed + path + ": ",
             "Successfully deleted file: " + path)
  }

  /** Neither reading nor deleting acts on a directory: both refuse it, and nothing is sent. */
  lemma DirectoriesRefused(input: string, gh: Service)
    requires ExistingPath(input).Ok? && gh.contents(ExistingPath(input).value).Directory?
    ensures ReadFile(input, gh).Refused? && DeleteFile(input, gh).sent == []
    ensures DeleteFile(input, gh).answer == Refuse("file " + ExistingPath(input).value + " not found")
  {
  }
}
