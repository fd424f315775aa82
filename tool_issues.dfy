/** The issue tools of tools/github/issues.go: list the open issues, show one issue with its
    comment thread, and comment on an issue. */
module IssueTools {
  import opened Results
  import opened Text
  import opened Decimal
  import opened Listing
  import opened ToolClient

  // ================================================================== listing issues

  const IssuesHeader: string := "Repository Issues:\n"

  /** One issue of the listing, without its line break. */
  function IssueEntry(k: nat, issue: IssueInfo): string
  {
    "Issue #" + Itoa(issue.number) + ": " + issue.title
  }

  function IssueLine(k: nat, issue: IssueInfo): string
  {
    IssueEntry(k, issue) + "\n"
  }

  /** `GetIssuesTool.Call`: the header, then one line per open issue of the first page. */
  method GetIssues(gh: Service) returns (r: Answer)
    ensures gh.openIssues.Err? ==>
      r == Refused(Says(gh.openIssues.error), "failed to fetch issues: " + gh.openIssues.error)
    ensures gh.openIssues.Ok? ==> r == Answered(IssuesHeader + Render(gh.openIssues.value, IssueLine))
  {
    if gh.openIssues.Err? {
      var e := gh.openIssues.error;
      return Refused(Says(e), "failed to fetch issues: " + e);
    }
    var out := WriteAll(IssuesHeader, gh.openIssues.value, IssueLine);
    r := Answered(out);
  }

  /** When no title holds a line break, the listing reads back line by line as its header and
      one "Issue #n: title" line per issue, in the order GitHub gave them. */
  lemma IssuesListed(issues: seq<IssueInfo>)
    requires forall k :: 0 <= k < |issues| ==> '\n' !in issues[k].title
    ensures Split(IssuesHeader + Render(issues, IssueLine), '\n') ==
      ["Repository Issues:"] + Entries(issues, IssueEntry) + [""]
  {
    IssuesHeaderLine();
    forall k | 0 <= k < |issues|
      ensures IssueLine(k, issues[k]) == IssueEntry(k, issues[k]) + "\n" && '\n' !in IssueEntry(k, issues[k])
    {
      EntryUnbroken(k, issues[k]);
    }
    HeadedLines("Repository Issues:", issues, IssueLine, IssueEntry);
  }

  lemma IssuesHeaderLine()
    ensures IssuesHeader == "Repository Issues:" + "\n" && '\n' !in "Repository Issues:"
  {
  }

  /** A listing entry has no line break of its own when its title has none. */
  lemma EntryUnbroken(k: nat, issue: IssueInfo)
    requires '\n' !in issue.title
    ensures '\n' !in IssueEntry(k, issue)
  {
    ItoaChars(issue.number);
    NoBreak("Issue #", Itoa(issue.number), ": ", issue.title);
  }

  /** A text made of four parts has a line break only where one of them has. */
  lemma NoBreak(a: string, b: string, c: string, d: string)
    requires '\n' !in a && '\n' !in c && '\n' !in d
    requires forall i :: 0 <= i < |b| ==> !IsSpace(b[i])
    ensures '\n' !in a + b + c + d
  {
    assert IsSpace('\n');
  }

  // ================================================================== one issue

  /** `strconv.Atoi` of the trimmed input, reporting its error as `strconv` would. */
  function Number(input: string): (r: Result<int>)
    ensures r.Ok? <==> Atoi(TrimSpace(input)).Some?
    ensures r.Ok? ==> r.value == Atoi(TrimSpace(input)).value && InRange(r.value)
  {
    match Atoi(TrimSpace(input))
    case None => Err(TrimSpace(input))
    case Some(n) => Ok(n)
  }

  /** Every canonical spelling of an `int`, with any white space around it, reads back as
      that number. */
  lemma NumberSpelled(n: int, pad: string, pad': string)
    requires InRange(n)
    requires forall i :: 0 <= i < |pad| ==> IsSpace(pad[i])
    requires forall i :: 0 <= i < |pad'| ==> IsSpace(pad'[i])
    ensures Number(pad + Itoa(n) + pad') == Ok(n)
  {
    AtoiItoa(n);
    ItoaChars(n);
    TrimPadded(pad, Itoa(n), pad', Spaces);
    TrimFixed(Itoa(n), Spaces);
  }

  /** The lines of the header, the state, the author and the creation time. */
  function IssueHeader(issue: IssueInfo): string
  {
    "Issue #" + Itoa(issue.number) + ": " + issue.title + "\n\n"
    + "State: " + issue.state + "\n"
    + "Author: " + issue.author + "\n"
    + "Created: " + issue.created + "\n\n"
  }

  /** The body section, present only when there is a body. */
  function BodySection(body: string): (r: string)
    ensures r == [] <==> body == []
    ensures body != [] ==> |r| == |body| + 8
    ensures body != [] ==> r[..6] == "Body:\n" && r[6..|r| - 2] == body && r[|r| - 2..] == "\n\n"
  {
    if body == "" then ""
    else
      var r := "Body:\n" + body + "\n\n";
      assert r[..6] == "Body:\n" && r[6..|r| - 2] == body;
      r
  }

  /** One comment, numbered from 1: its author and creation time, then its body. */
  function CommentBlock(k: nat, c: Comment): string
  {
    "Comment #" + Itoa(k + 1) + " by " + c.author + " (" + c.created + "):\n" + c.body + "\n\n"
  }

  const CommentsHeader: string := "Comments:\n"

  /** The comment thread, present only when there is at least one comment. */
  function CommentsSection(cs: seq<Comment>): (r: string)
    ensures r == [] <==> cs == []
  {
    if cs == [] then "" else CommentsHeader + Render(cs, CommentBlock)
  }

  /** The comment at position `i` of the thread appears as the `(i + 1)`-th block, after the
      blocks of the comments before it, numbered `i + 1`. */
  lemma CommentsNumbered(cs: seq<Comment>, i: nat)
    requires i < |cs|
    ensures var s := CommentsSection(cs);
      var a := |CommentsHeader| + |Render(cs[..i], CommentBlock)|;
      var b := |CommentsHeader| + |Render(cs[..i + 1], CommentBlock)|;
      a <= b <= |s| && s[a..b] == CommentBlock(i, cs[i])
      && s[a..b][..9] == "Comment #" && s[a..b][9..9 + |Itoa(i + 1)|] == Itoa(i + 1)
  {
    HeadedPlaces(CommentsHeader, cs, CommentBlock, i);
    CommentNumber(i, cs[i]);
  }

  /** A comment block opens with its number. */
  lemma CommentNumber(k: nat, c: Comment)
    ensures var s := CommentBlock(k, c);
      9 + |Itoa(k + 1)| <= |s| && s[..9] == "Comment #" && s[9..9 + |Itoa(k + 1)|] == Itoa(k + 1)
  {
  }

  /** The output of an issue once it and its comments have arrived. */
  method ShowIssue(issue: IssueInfo, cs: seq<Comment>) returns (out: string)
    ensures out == IssueHeader(issue) + BodySection(issue.body) + CommentsSection(cs)
  {
    out := IssueHeader(issue) + BodySection(issue.body);
    if cs != [] {
      out := WriteAll(out + CommentsHeader, cs, CommentBlock);
    }
  }

  const InvalidIssue: string := "invalid issue number: "
  const IssueFailed: string := "failed to fetch issue #"
  const CommentsFailed: string := "failed to fetch comments for issue #"

  /** `GetIssueTool.Call`: the number, then the issue and its comments, each of which may fail
      to arrive. */
  method GetIssue(input: string, gh: Service) returns (r: Answer)
    ensures Number(input).Err? ==> r == Refused(NotANumber(TrimSpace(input)), InvalidIssue + input)
    ensures r.Answered? <==>
      (Number(input).Ok? && gh.issue(Number(input).value).Ok? && gh.comments(Number(input).value).Ok?)
    ensures r.Answered? ==>
      var n := Number(input).value;
      var issue := gh.issue(n).value;
      r.text == IssueHeader(issue) + BodySection(issue.body) + CommentsSection(gh.comments(n).value)
    ensures Number(input).Ok? && gh.issue(Number(input).value).Err? ==>
      var n := Number(input).value;
      var e := gh.issue(n).error;
      r == Refused(Says(e), IssueFailed + Itoa(n) + ": " + e)
    ensures Number(input).Ok? && gh.issue(Number(input).value).Ok? && gh.comments(Number(input).value).Err? ==>
      var n := Number(input).value;
      var e := gh.comments(n).error;
      r == Refused(Says(e), CommentsFailed + Itoa(n) + ": " + e)
  {
    match Number(input) {
      case Err(text) =>
        return Refused(NotANumber(text), InvalidIssue + input);
      case Ok(n) =>
        match gh.issue(n) {
          case Err(e) =>
            return Refused(Says(e), IssueFailed + Itoa(n) + ": " + e);
          case Ok(issue) =>
            match gh.comments(n) {
              case Err(e) =>
                return Refused(Says(e), CommentsFailed + Itoa(n) + ": " + e);
              case Ok(cs) =>
                var out := ShowIssue(issue, cs);
                return Answered(out);
            }
        }
    }
  }

  // ================================================================== commenting

  const CommentFormat: string := "invalid input format: expected 'issue_number\\n\\ncomment', got: "
  const EmptyComment: string := "comment body cannot be empty"

  /** `CommentOnIssueTool.Call`: the number before the first blank line, the trimmed comment
      after it. */
  function CommentOnIssue(input: string, gh: Service): (r: Reply)
    ensures Cut(input, "\n\n").None? ==> r == Reply(Refuse(CommentFormat + input), [])
    ensures r.sent != [] ==>
      var (head, rest) := Cut(input, "\n\n").value;
      && Number(head).Ok? && TrimSpace(rest) != []
      && r.sent == [NewComment(Number(head).value, TrimSpace(rest))]
    ensures (Cut(input, "\n\n").Some? && Number(Cut(input, "\n\n").value.0).Ok?
             && TrimSpace(Cut(input, "\n\n").value.1) != []) ==> r.sent != []
    ensures r.answer.Answered? ==> r.sent != [] && gh.send(r.sent[0]).Ok?
  {
    match Cut(input, "\n\n")
    case None => Reply(Refuse(CommentFormat + input), [])
    case Some((head, rest)) =>
      match Number(head)
      case Err(text) => Reply(Refused(NotANumber(text), InvalidIssue + head), [])
      case Ok(n) =>
        var body := TrimSpace(rest);
        if body == "" then Reply(Refuse(EmptyComment), [])
        else
          var w := NewComment(n, body);
          match gh.send(w)
          case Err(e) => Reply(Refused(Says(e), "failed to create comment on issue #" + Itoa(n) + ": " + e), [w])
          case Ok(c) =>
            Reply(Answered("Successfully created comment #" + Itoa(c.number) + " on issue #" + Itoa(n)), [w])
  }

  /** A number, a blank line and a comment post that comment on that issue; white space
      around the comment is dropped. */
  lemma CommentParts(n: int, comment: string, gh: Service)
    requires InRange(n) && TrimSpace(comment) != []
    ensures CommentOnIssue(Itoa(n) + "\n\n" + comment, gh).sent == [NewComment(n, TrimSpace(comment))]
  {
    ItoaChars(n);
    assert IsSpace('\n');
    CutFresh(Itoa(n), "\n\n", comment);
    NumberSpelled(n, "", "");
    assert "" + Itoa(n) + "" == Itoa(n);
  }
}
