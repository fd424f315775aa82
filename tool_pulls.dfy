/** The pull request tools of tools/github/pullrequests.go: list the open pull requests, show
    one with its commits and comments, open one, and list the files one changes. */
module PullTools {
  import opened Results
  import opened Text
  import opened Decimal
  import opened Listing
  import opened ToolClient
  import opened IssueTools

  // ================================================================== listing pull requests

  const PullsHeader: string := "Repository Pull Requests:\n"

  /** One pull request of the listing, without its line break. */
  function PullEntry(k: nat, pr: PullInfo): string
  {
    "PR #" + Itoa(pr.number) + ": " + pr.title
  }

  function PullLine(k: nat, pr: PullInfo): string
  {
    PullEntry(k, pr) + "\n"
  }

  /** `ListPullRequestsTool.Call`: the header, then one line per open pull request of the
      first page. */
  method ListPullRequests(gh: Service) returns (r: Answer)
    ensures gh.openPulls.Err? ==>
      r == Refused(Says(gh.openPulls.error), "failed to fetch pull requests: " + gh.openPulls.error)
    ensures gh.openPulls.Ok? ==> r == Answered(PullsHeader + Render(gh.openPulls.value, PullLine))
  {
    if gh.openPulls.Err? {
      var e := gh.openPulls.error;
      return Refused(Says(e), "failed to fetch pull requests: " + e);
    }
    var out := WriteAll(PullsHeader, gh.openPulls.value, PullLine);
    r := Answered(out);
  }

  /** When no title holds a line break, the listing reads back as its header and one
      "PR #n: title" line per pull request, in order. */
  lemma PullsListed(prs: seq<PullInfo>)
    requires forall k :: 0 <= k < |prs| ==> '\n' !in prs[k].title
    ensures Split(PullsHeader + Render(prs, PullLine), '\n') ==
      ["Repository Pull Requests:"] + Entries(prs, PullEntry) + [""]
  {
    PullsHeaderLine();
    forall k | 0 <= k < |prs|
      ensures PullLine(k, prs[k]) == PullEntry(k, prs[k]) + "\n" && '\n' !in PullEntry(k, prs[k])
    {
      PullUnbroken(k, prs[k]);
    }
    HeadedLines("Repository Pull Requests:", prs, PullLine, PullEntry);
  }

  /** A listing entry has no line break of its own when its title has none. */
  lemma PullUnbroken(k: nat, pr: PullInfo)
    requires '\n' !in pr.title
    ensures '\n' !in PullEntry(k, pr)
  {
    ItoaChars(pr.number);
    NoBreak("PR #", Itoa(pr.number), ": ", pr.title);
  }

  lemma PullsHeaderLine()
    ensures PullsHeader == "Repository Pull Requests:" + "\n" && '\n' !in "Repository Pull Requests:"
  {
  }

  // ================================================================== one pull request

  /** The header lines: number and title, state, author, creation time, and the branches. */
  function PullHeader(pr: PullInfo): string
  {
    "Pull Request #" + Itoa(pr.number) + ": " + pr.title + "\n\n"
    + "State: " + pr.state + "\n"
    + "Author: " + pr.author + "\n"
    + "Created: " + pr.created + "\n"
    + "Base: " + pr.base + " <- Head: " + pr.head + "\n\n"
  }

  /** The first eight characters of a commit's SHA. */
  function ShortSha(sha: string): (r: string)
    ensures |sha| >= 8 ==> |r| == 8 && r <= sha
  {
    if |sha| >= 8 then sha[..8] else sha
  }

  /** One commit line, without its line break: the abbreviated SHA and the message. */
  function CommitEntry(k: nat, c: Commit): string
  {
    "- " + ShortSha(c.sha) + ": " + c.message
  }

  function CommitLine(k: nat, c: Commit): string
  {
    CommitEntry(k, c) + "\n"
  }

  const CommitsHeader: string := "Commits:\n"

  /** The commits section, present only when there is at least one commit, closed by a blank
      line. */
  function CommitsSection(commits: seq<Commit>): (r: string)
    ensures r == [] <==> commits == []
  {
    if commits == [] then "" else CommitsHeader + Render(commits, CommitLine) + "\n"
  }

  /** Some commit has a SHA too short to take eight characters of. */
  predicate ShortShas(commits: seq<Commit>)
  {
    exists k :: 0 <= k < |commits| && |commits[k].sha| < 8
  }

  /** The commit loop: one line per commit after `prefix`, or a panic at the first SHA shorter
      than eight characters, as Go's slice expression `sha[:8]` panics. */
  method WriteCommits(prefix: string, commits: seq<Commit>) returns (out: string, panicked: bool)
    ensures panicked <==> ShortShas(commits)
    ensures !panicked ==> out == prefix + Render(commits, CommitLine)
  {
    out := prefix;
    for i := 0 to |commits|
      invariant forall k :: 0 <= k < i ==> |commits[k].sha| >= 8
      invariant out == prefix + Render(commits[..i], CommitLine)
    {
      if |commits[i].sha| < 8 {
        assert ShortShas(commits) by {
          assert |commits[i].sha| < 8;
        }
        return out, true;
      }
      var next := out + CommitLine(i, commits[i]);
      AppendStep(prefix, out, commits, CommitLine, i, next);
      out := next;
    }
    assert commits[..|commits|] == commits;
    panicked := false;
  }

  /** With no line break in a SHA or a message, the commit lines read back one per commit, in
      order; each is "- ", the SHA's first eight characters, ": " and the message. */
  lemma CommitsListed(commits: seq<Commit>)
    requires forall k :: 0 <= k < |commits| ==> '\n' !in commits[k].message && '\n' !in commits[k].sha
    ensures Split(Render(commits, CommitLine), '\n') == Entries(commits, CommitEntry) + [""]
  {
    forall k | 0 <= k < |commits|
      ensures CommitLine(k, commits[k]) == CommitEntry(k, commits[k]) + "\n" && '\n' !in CommitEntry(k, commits[k])
    {
      CommitUnbroken(k, commits[k]);
    }
    RenderLines(commits, CommitLine, CommitEntry);
  }

  lemma CommitUnbroken(k: nat, c: Commit)
    requires '\n' !in c.message && '\n' !in c.sha
    ensures '\n' !in CommitEntry(k, c)
  {
    assert ShortSha(c.sha) <= c.sha;
  }

  const InvalidPull: string := "invalid PR number: "
  const PullFailed: string := "failed to fetch PR #"
  const PullCommentsFailed: string := "failed to fetch comments for PR #"
  const CommitsFailed: string := "failed to fetch commits for PR #"

  /** `GetPullRequestTool.Call` once the pull request, its comments and its commits have
      arrived: the header, then the body, commits and comments sections, each only when it
      has something to show. */
  method ShowPull(pr: PullInfo, comments: seq<Comment>, commits: seq<Commit>) returns (r: Answer)
    ensures r.Panicked? <==> ShortShas(commits)
    ensures !r.Panicked? ==>
      r == Answered(PullHeader(pr) + BodySection(pr.body) + CommitsSection(commits) + CommentsSection(comments))
  {
    r := WriteSections(PullHeader(pr) + BodySection(pr.body), comments, commits);
  }

  /** The commits and comments sections after what `head` already holds. */
  method WriteSections(head: string, comments: seq<Comment>, commits: seq<Commit>) returns (r: Answer)
    ensures r.Panicked? <==> ShortShas(commits)
    ensures !r.Panicked? ==> r == Answered(head + CommitsSection(commits) + CommentsSection(comments))
  {
    var out, panicked := WithCommits(head, commits);
    if panicked {
      return Panicked("slice bounds out of range");
    }
    out := WithComments(out, comments);
    r := Answered(out);
  }

  /** The commits section after `head`, or a panic. */
  method WithCommits(head: string, commits: seq<Commit>) returns (out: string, panicked: bool)
    ensures panicked <==> ShortShas(commits)
    ensures !panicked ==> out == head + CommitsSection(commits)
  {
    if commits == [] {
      assert head + CommitsSection(commits) == head;
      return head, false;
    }
    out, panicked := WriteCommits(head + CommitsHeader, commits);
    if !panicked {
      var listed := Render(commits, CommitLine);
      assert (head + CommitsHeader) + listed + "\n" == head + (CommitsHeader + listed + "\n");
      out := out + "\n";
    }
  }

  /** The comments section after `head`. */
  method WithComments(head: string, comments: seq<Comment>) returns (out: string)
    ensures out == head + CommentsSection(comments)
  {
    if comments == [] {
      return head;
    }
    out := WriteAll(head + CommentsHeader, comments, CommentBlock);
  }

  /** `GetPullRequestTool.Call`: the number, then the pull request, its comments and its
      commits, each of which may fail to arrive. */
  method GetPullRequest(input: string, gh: Service) returns (r: Answer)
    ensures Number(input).Err? ==> r == Refused(NotANumber(TrimSpace(input)), InvalidPull + input)
    ensures Number(input).Ok? && gh.pull(Number(input).value).Err? ==>
      var n := Number(input).value;
      r == Refused(Says(gh.pull(n).error), PullFailed + Itoa(n) + ": " + gh.pull(n).error)
    ensures Number(input).Ok? && gh.pull(Number(input).value).Ok? && gh.comments(Number(input).value).Err? ==>
      var n := Number(input).value;
      r == Refused(Says(gh.comments(n).error), PullCommentsFailed + Itoa(n) + ": " + gh.comments(n).error)
    ensures (Number(input).Ok? && gh.pull(Number(input).value).Ok? && gh.comments(Number(input).value).Ok?
             && gh.commits(Number(input).value).Err?) ==>
      var n := Number(input).value;
      r == Refused(Says(gh.commits(n).error), CommitsFailed + Itoa(n) + ": " + gh.commits(n).error)
    ensures r.Answered? || r.Panicked? <==>
      (Number(input).Ok? && gh.pull(Number(input).value).Ok? && gh.comments(Number(input).value).Ok?
       && gh.commits(Number(input).value).Ok?)
    ensures r.Answered? || r.Panicked? ==>
      var n := Number(input).value;
      var pr := gh.pull(n).value;
      && (r.Panicked? <==> ShortShas(gh.commits(n).value))
      && (r.Answered? ==> r.text == PullHeader(pr) + BodySection(pr.body)
                                   + CommitsSection(gh.commits(n).value) + CommentsSection(gh.comments(n).value))
  {
    match Number(input) {
      case Err(text) =>
        return Refused(NotANumber(text), InvalidPull + input);
      case Ok(n) =>
        match gh.pull(n) {
          case Err(e) =>
            return Refused(Says(e), PullFailed + Itoa(n) + ": " + e);
          case Ok(pr) =>
            match gh.comments(n) {
              case Err(e) =>
                return Refused(Says(e), PullCommentsFailed + Itoa(n) + ": " + e);
              case Ok(comments) =>
                match gh.commits(n) {
                  case Err(e) =>
                    return Refused(Says(e), CommitsFailed + Itoa(n) + ": " + e);
                  case Ok(commits) =>
                    r := ShowPull(pr, comments, commits);
                }
            }
        }
    }
  }

  // ================================================================== opening a pull request

  const PullFormat: string := "invalid input format: expected 'title\\n\\nbody', got: "
  const EmptyTitle: string := "pull request title cannot be empty"
  const RepositoryFailed: string := "failed to get repository info: "
  const CreatePullFailed: string := "failed to create pull request: "

  /** `CreatePullRequestTool.Call`: the trimmed title before the first blank line, the trimmed
      body after it; the pull request goes from "HEAD" into the repository's default branch. */
  function CreatePullRequest(input: string, gh: Service): (r: Reply)
    ensures Cut(input, "\n\n").None? ==> r == Reply(Refuse(PullFormat + input), [])
    ensures Cut(input, "\n\n").Some? && TrimSpace(Cut(input, "\n\n").value.0) == [] ==>
      r == Reply(Refuse(EmptyTitle), [])
    ensures r.sent != [] ==>
      var (title, body) := Cut(input, "\n\n").value;
      && TrimSpace(title) != [] && gh.defaultBranch.Ok?
      && r.sent == [NewPull(TrimSpace(title), TrimSpace(body), "HEAD", gh.defaultBranch.value)]
    ensures (Cut(input, "\n\n").Some? && TrimSpace(Cut(input, "\n\n").value.0) != []
             && gh.defaultBranch.Ok?) ==> r.sent != []
    ensures r.answer.Answered? ==> r.sent != [] && gh.send(r.sent[0]).Ok?
  {
    match Cut(input, "\n\n")
    case None => Reply(Refuse(PullFormat + input), [])
    case Some((rawTitle, rawBody)) =>
      var title := TrimSpace(rawTitle);
      var body := TrimSpace(rawBody);
      if title == "" then Reply(Refuse(EmptyTitle), [])
      else
        match gh.defaultBranch
        case Err(e) => Reply(Refused(Says(e), RepositoryFailed + e), [])
        case Ok(base) =>
          var w := NewPull(title, body, "HEAD", base);
          match gh.send(w)
          case Err(e) => Reply(Refused(Says(e), CreatePullFailed + e), [w])
          case Ok(c) => Reply(Answered("Successfully created pull request #" + Itoa(c.number) + ": " + c.title), [w])
  }

  /** A title, a blank line and a body open a pull request with that title and the trimmed
      body, from "HEAD" into the default branch. */
  lemma CreatePullParts(title: string, body: string, gh: Service)
    requires title != [] && !IsSpace(title[0]) && !IsSpace(title[|title| - 1]) && '\n' !in title
    requires gh.defaultBranch.Ok?
    ensures CreatePullRequest(title + "\n\n" + body, gh).sent ==
      [NewPull(title, TrimSpace(body), "HEAD", gh.defaultBranch.value)]
  {
    assert title[0] !in Spaces && title[|title| - 1] !in Spaces;
    TrimFixed(title, Spaces);
    CutFresh(title, "\n\n", body);
  }

  // ================================================================== files of a pull request

  /** The patch part of a file block, present only when there is a patch. */
  function PatchPart(patch: string): (r: string)
    ensures r == [] <==> patch == []
    ensures patch != [] ==> |r| == |patch| + 7 && r[..7] == "Patch:\n" && r[7..] == patch
  {
    if patch == "" then ""
    else
      var r := "Patch:\n" + patch;
      assert r[..7] == "Patch:\n" && r[7..] == patch;
      r
  }

  /** One changed file: its name, status and line counts, its patch, and the separator. */
  function FileBlock(k: nat, f: PullFile): (r: string)
    ensures |r| >= |Separator| && r[|r| - |Separator|..] == Separator
  {
    var r := "File: " + f.filename + "\n"
      + "Status: " + f.status + "\n"
      + "Additions: " + Itoa(f.additions) + ", Deletions: " + Itoa(f.deletions)
      + ", Changes: " + Itoa(f.changes) + "\n"
      + PatchPart(f.patch);
    assert (r + Separator)[|r|..] == Separator;
    r + Separator
  }

  /** The heading of the file listing. */
  function FilesHeader(n: int): string
  {
    "Files in Pull Request #" + Itoa(n) + ":\n\n"
  }

  const FilesFailed: string := "failed to fetch files for PR #"

  /** `ListPullRequestFilesTool.Call`: the number, then one block per changed file. */
  method ListPullRequestFiles(input: string, gh: Service) returns (r: Answer)
    ensures Number(input).Err? ==> r == Refused(NotANumber(TrimSpace(input)), InvalidPull + input)
    ensures Number(input).Ok? && gh.pullFiles(Number(input).value).Err? ==>
      var n := Number(input).value;
      r == Refused(Says(gh.pullFiles(n).error), FilesFailed + Itoa(n) + ": " + gh.pullFiles(n).error)
    ensures r.Answered? <==> Number(input).Ok? && gh.pullFiles(Number(input).value).Ok?
    ensures r.Answered? ==>
      var n := Number(input).value;
      r.text == FilesHeader(n) + Render(gh.pullFiles(n).value, FileBlock)
  {
    match Number(input) {
      case Err(text) =>
        return Refused(NotANumber(text), InvalidPull + input);
      case Ok(n) =>
        match gh.pullFiles(n) {
          case Err(e) =>
            return Refused(Says(e), FilesFailed + Itoa(n) + ": " + e);
          case Ok(files) =>
            var out := WriteAll(FilesHeader(n), files, FileBlock);
            return Answered(out);
        }
    }
  }

  /** The block of the file at position `i` follows the heading and the blocks before it,
      and ends with the separator. */
  lemma FilesInOrder(header: string, files: seq<PullFile>, i: nat)
    requires i < |files|
    ensures var s := header + Render(files, FileBlock);
      var a := |header| + |Render(files[..i], FileBlock)|;
      var b := |header| + |Render(files[..i + 1], FileBlock)|;
      a <= b <= |s| && s[a..b] == FileBlock(i, files[i]) && s[b - |Separator|..b] == Separator
  {
    HeadedPlaces(header, files, FileBlock, i);
    HeadedPlaceEnds(header, files, FileBlock, i, Separator);
  }

}
