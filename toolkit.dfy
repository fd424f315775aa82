/** The toolkit of tools/github/toolkit.go: every tool built over its own client from the
    environment, in a fixed order, with the release tools added on request; lookup by name
    and the list of names. */
module GitHubToolkit {
  import opened Results
  import opened Text
  import opened Environment
  import opened Lists
  import opened ToolClient
  import FileTools
  import IssueTools
  import PullTools
  import RepositoryTools
  import Listing

  // ================================================================== the tools

  /** Which tool a `Tool` is. */
  datatype Kind =
    | GetIssues | GetIssue | CommentOnIssue
    | ListPullRequests | GetPullRequest | CreatePullRequest | ListPullRequestFiles
    | ReadFile | CreateFile | UpdateFile | DeleteFile
    | ListBranches | GetDirectoryFiles | SearchCode | SearchIssuesAndPRs
    | GetReleases | GetLatestRelease | GetRelease
  {
    predicate IsRelease()
    {
      this == GetReleases || this == GetLatestRelease || this == GetRelease
    }

    /** The tools that send something to GitHub. */
    predicate Writes()
    {
      this == CommentOnIssue || this == CreatePullRequest || this == CreateFile || this == UpdateFile
      || this == DeleteFile
    }
  }

  /** The name each tool's `Name()` gives. */
  function Name(k: Kind): string
  {
    match k
    case GetIssues => "Get Issues"
    case GetIssue => "Get Issue"
    case CommentOnIssue => "Comment on Issue"
    case ListPullRequests => "List Pull Requests"
    case GetPullRequest => "Get Pull Request"
    case CreatePullRequest => "Create Pull Request"
    case ListPullRequestFiles => "List Pull Request Files"
    case ReadFile => "Read File"
    case CreateFile => "Create File"
    case UpdateFile => "Update File"
    case DeleteFile => "Delete File"
    case ListBranches => "List Branches"
    case GetDirectoryFiles => "Get Directory Files"
    case SearchCode => "Search Code"
    case SearchIssuesAndPRs => "Search Issues and PRs"
    case GetReleases => "Get Releases"
    case GetLatestRelease => "Get Latest Release"
    case GetRelease => "Get Release"
  }

  /** How `NewToolkit` speaks of each tool when its constructor fails. */
  function Role(k: Kind): string
  {
    match k
    case GetIssues => "get issues"
    case GetIssue => "get issue"
    case CommentOnIssue => "comment on issue"
    case ListPullRequests => "list pull requests"
    case GetPullRequest => "get pull request"
    case CreatePullRequest => "create pull request"
    case ListPullRequestFiles => "list pull request files"
    case ReadFile => "read file"
    case CreateFile => "create file"
    case UpdateFile => "update file"
    case DeleteFile => "delete file"
    case ListBranches => "list branches"
    case GetDirectoryFiles => "get directory files"
    case SearchCode => "search code"
    case SearchIssuesAndPRs => "search issues and PRs"
    case GetReleases => "get releases"
    case GetLatestRelease => "get latest release"
    case GetRelease => "get release"
  }

  function CreateFailed(k: Kind, error: string): string
  {
    "failed to create " + Role(k) + " tool: " + error
  }

  /** A tool: which one it is, and the `BaseTool` it embeds. */
  class Tool {
    const kind: Kind
    const base: BaseTool

    /** `NewGetIssuesTool` and its siblings, once `NewClient` has succeeded. */
    constructor (kind: Kind, client: Client)
      ensures this.kind == kind && fresh(base) && Unused(base, client)
    {
      this.kind := kind;
      base := new BaseTool(client);
    }

    /** `Call`: the tool's own work on the input, framed by the start and end (or error)
        events its callbacks handler receives. Reading tools send nothing; writing tools
        send what their own operation sends. */
    method Call(input: string, gh: Service) returns (r: Answer, sent: seq<Write>)
      requires !kind.IsRelease()
      modifies base
      ensures base.callbacksHandler == old(base.callbacksHandler)
      ensures base.delivered == old(base.delivered) + Delivered(base.callbacksHandler, CallEvents(input, r))
      ensures kind.Writes() ==> Reply(r, sent) == Written(kind, input, gh)
      ensures !kind.Writes() ==> sent == []
      ensures !kind.Writes() ==> ReadAnswer(kind, input, base.client, gh, r)
      ensures kind == ReadFile ==> r == FileTools.ReadFile(input, gh)
      ensures kind == GetIssues ==> (r.Answered? <==> gh.openIssues.Ok?)
      ensures kind == ListPullRequests ==> (r.Answered? <==> gh.openPulls.Ok?)
      ensures kind == ListBranches ==> (r.Answered? <==> gh.branches.Ok?)
    {
      var answer: Answer;
      if kind.Writes() {
        var reply := Written(kind, input, gh);
        answer, sent := reply.answer, reply.sent;
      } else {
        answer := Read(kind, input, base.client, gh);
        sent := [];
      }
      r := base.Invoke(input, answer);
    }
  }

  /** What each reading tool answers, as its own operation promises: the refusal for an
      input it cannot use or a fetch that fails, and otherwise the text it builds. */
  predicate ReadAnswer(kind: Kind, input: string, client: Client, gh: Service, r: Answer)
    requires !kind.IsRelease() && !kind.Writes()
  {
    match kind
    case GetIssues =>
      && (gh.openIssues.Err? ==>
            r == Refused(Says(gh.openIssues.error), "failed to fetch issues: " + gh.openIssues.error))
      && (gh.openIssues.Ok? ==>
            r == Answered(IssueTools.IssuesHeader + Listing.Render(gh.openIssues.value, IssueTools.IssueLine)))
    case GetIssue =>
      var num := IssueTools.Number(input);
      && (num.Err? ==> r == Refused(NotANumber(TrimSpace(input)), IssueTools.InvalidIssue + input))
      && (r.Answered? <==> num.Ok? && gh.issue(num.value).Ok? && gh.comments(num.value).Ok?)
      && (r.Answered? ==>
            var issue := gh.issue(num.value).value;
            r.text == IssueTools.IssueHeader(issue) + IssueTools.BodySection(issue.body)
                      + IssueTools.CommentsSection(gh.comments(num.value).value))
    case ListPullRequests =>
      && (gh.openPulls.Err? ==>
            r == Refused(Says(gh.openPulls.error), "failed to fetch pull requests: " + gh.openPulls.error))
      && (gh.openPulls.Ok? ==>
            r == Answered(PullTools.PullsHeader + Listing.Render(gh.openPulls.value, PullTools.PullLine)))
    case GetPullRequest =>
      var num := IssueTools.Number(input);
      && (num.Err? ==> r == Refused(NotANumber(TrimSpace(input)), PullTools.InvalidPull + input))
      && (r.Answered? || r.Panicked? <==>
            num.Ok? && gh.pull(num.value).Ok? && gh.comments(num.value).Ok? && gh.commits(num.value).Ok?)
      && (r.Answered? || r.Panicked? ==>
            var pr := gh.pull(num.value).value;
            && (r.Panicked? <==> PullTools.ShortShas(gh.commits(num.value).value))
            && (r.Answered? ==>
                  r.text == PullTools.PullHeader(pr) + IssueTools.BodySection(pr.body)
                            + PullTools.CommitsSection(gh.commits(num.value).value)
                            + IssueTools.CommentsSection(gh.comments(num.value).value)))
    case ListPullRequestFiles =>
      var num := IssueTools.Number(input);
      && (num.Err? ==> r == Refused(NotANumber(TrimSpace(input)), PullTools.InvalidPull + input))
      && (r.Answered? <==> num.Ok? && gh.pullFiles(num.value).Ok?)
      && (r.Answered? ==>
            r.text == PullTools.FilesHeader(num.value) + Listing.Render(gh.pullFiles(num.value).value, PullTools.FileBlock))
    case ReadFile =>
      r == FileTools.ReadFile(input, gh)
    case ListBranches =>
      && (gh.branches.Err? ==>
            r == Refused(Says(gh.branches.error), "failed to fetch branches: " + gh.branches.error))
      && (gh.branches.Ok? ==>
            r == Answered(RepositoryTools.BranchesHeader + Listing.Render(gh.branches.value, RepositoryTools.BranchLine)))
    case GetDirectoryFiles =>
      var path := RepositoryTools.DirectoryPath(input);
      && (gh.contents(path).Unavailable? ==>
            r == Refused(Says(gh.contents(path).error), RepositoryTools.DirectoryFailed + path + ": " + gh.contents(path).error))
      && (!gh.contents(path).Unavailable? ==>
            r == Answered(RepositoryTools.DirectoryHeader(path)
                          + Listing.Render(RepositoryTools.DirectoryItems(gh.contents(path)), RepositoryTools.ItemLine)))
    case SearchCode =>
      var query := TrimSpace(input);
      var found := gh.searchCode(RepositoryTools.SearchQuery(query, client));
      && (query == [] ==> r == Refuse(RepositoryTools.EmptyQuery))
      && (query != [] && found.Err? ==> r == Refused(Says(found.error), "failed to search code: " + found.error))
      && (query != [] && found.Ok? ==>
            r == Answered(RepositoryTools.CodeIntro(query) + RepositoryTools.Findings(found.value, RepositoryTools.HitBlock)))
    case SearchIssuesAndPRs =>
      var query := TrimSpace(input);
      var found := gh.searchIssues(RepositoryTools.SearchQuery(query, client));
      && (query == [] ==> r == Refuse(RepositoryTools.EmptyQuery))
      && (query != [] && found.Err? ==>
            r == Refused(Says(found.error), "failed to search issues and PRs: " + found.error))
      && (query != [] && found.Ok? ==>
            r == Answered(RepositoryTools.IssuesIntro(query) + RepositoryTools.Findings(found.value, RepositoryTools.ResultBlock)))
  }

  /** The answer of a tool that only reads, worked out with the tool's client. */
  method Read(kind: Kind, input: string, client: Client, gh: Service) returns (r: Answer)
    requires !kind.IsRelease() && !kind.Writes()
    ensures ReadAnswer(kind, input, client, gh, r)
    ensures kind == ReadFile ==> r == FileTools.ReadFile(input, gh)
    ensures kind == GetIssues ==> (r.Answered? <==> gh.openIssues.Ok?)
    ensures kind == ListPullRequests ==> (r.Answered? <==> gh.openPulls.Ok?)
    ensures kind == ListBranches ==> (r.Answered? <==> gh.branches.Ok?)
  {
    match kind {
      case GetIssues => r := IssueTools.GetIssues(gh);
      case GetIssue => r := IssueTools.GetIssue(input, gh);
      case ListPullRequests => r := PullTools.ListPullRequests(gh);
      case GetPullRequest => r := PullTools.GetPullRequest(input, gh);
      case ListPullRequestFiles => r := PullTools.ListPullRequestFiles(input, gh);
      case ReadFile => r := FileTools.ReadFile(input, gh);
      case ListBranches => r := RepositoryTools.ListBranches(gh);
      case GetDirectoryFiles => r := RepositoryTools.GetDirectoryFiles(input, gh);
      case SearchCode => r := RepositoryTools.SearchCode(input, client, gh);
      case SearchIssuesAndPRs => r := RepositoryTools.SearchIssuesAndPRs(input, client, gh);
    }
  }

  /** The reply of a tool that writes: its own operation's answer and the writes it sent. */
  function Written(kind: Kind, input: string, gh: Service): Reply
    requires kind.Writes()
  {
    match kind
    case CommentOnIssue => IssueTools.CommentOnIssue(input, gh)
    case CreatePullRequest => PullTools.CreatePullRequest(input, gh)
    case CreateFile => FileTools.CreateFile(input, gh)
    case UpdateFile => FileTools.UpdateFile(input, gh)
    case DeleteFile => FileTools.DeleteFile(input, gh)
  }

  // ================================================================== building the toolkit

  /** The tools every toolkit has, in order. */
  const CoreKinds: seq<Kind> := [
    GetIssues, GetIssue, CommentOnIssue,
    ListPullRequests, GetPullRequest, CreatePullRequest, ListPullRequestFiles,
    ReadFile, CreateFile, UpdateFile, DeleteFile,
    ListBranches, GetDirectoryFiles, SearchCode, SearchIssuesAndPRs
  ]

  /** The tools added when `IncludeReleaseTools` is set, in order. */
  const ReleaseKinds: seq<Kind> := [GetReleases, GetLatestRelease, GetRelease]

  /** The tools of a toolkit, in the order `NewToolkit` appends them. */
  function Catalogue(includeReleaseTools: bool): (r: seq<Kind>)
    ensures |r| == if includeReleaseTools then 18 else 15
    ensures r[..15] == CoreKinds && r[0] == GetIssues
    ensures forall i :: 0 <= i < |r| ==> (r[i].IsRelease() <==> i >= 15)
  {
    CoreKinds + if includeReleaseTools then ReleaseKinds else []
  }

  datatype ToolkitOptions = ToolkitOptions(includeReleaseTools: bool)

  /** Only the first options value counts; without one, release tools are left out. */
  function Included(opts: seq<ToolkitOptions>): bool
  {
    |opts| > 0 && opts[0].includeReleaseTools
  }

  /** `Toolkit`: the tools in order. `GetTools` is the `tools` field itself. */
  class Toolkit {
    const tools: seq<Tool>

    constructor (tools: seq<Tool>)
      ensures this.tools == tools
    {
      this.tools := tools;
    }

    /** Which tool each position holds. */
    function Kinds(): (r: seq<Kind>)
      ensures |r| == |tools| && forall i :: 0 <= i < |tools| ==> r[i] == tools[i].kind
    {
      seq(|tools|, i requires 0 <= i < |tools| => tools[i].kind)
    }

    /** `GetToolByName`: the first tool with that name, or none. */
    method GetToolByName(name: string) returns (r: Option<Tool>)
      ensures var k := FirstWhere(Kinds(), Named(name));
        r == if k == -1 then None else Some(tools[k])
    {
      ghost var kinds := Kinds();
      for i := 0 to |tools|
        invariant forall j :: 0 <= j < i ==> !Named(name)(kinds[j])
      {
        var k := tools[i].kind;
        assert kinds[i] == k;
        if Name(k) == name {
          assert Named(name)(k);
          return Some(tools[i]);
        }
        assert !Named(name)(k);
      }
      return None;
    }

    /** `GetToolNames`: one name per tool, filled in by position. */
    method GetToolNames() returns (names: seq<string>)
      ensures |names| == |tools|
      ensures forall i :: 0 <= i < |tools| ==> names[i] == Name(tools[i].kind)
    {
      var a := new string[|tools|];
      for i := 0 to |tools|
        invariant forall j :: 0 <= j < i ==> a[j] == Name(tools[j].kind)
      {
        a[i] := Name(tools[i].kind);
      }
      names := a[..];
    }
  }

  /** `NewToolkit`: build each tool in turn over a fresh client; the first constructor that
      fails ends the build with its wrapped error. Every constructor asks `NewClient` the
      same question, so when one fails the first does. */
  method NewToolkit(env: Env, opts: seq<ToolkitOptions>) returns (r: Result<Toolkit>)
    ensures r.Err? <==> NewClient(env).Err?
    ensures r.Err? ==> r.error == CreateFailed(GetIssues, NewClient(env).error)
    ensures r.Ok? ==> fresh(r.value) && r.value.Kinds() == Catalogue(Included(opts))
    ensures r.Ok? ==> forall i :: 0 <= i < |r.value.tools| ==>
      fresh(r.value.tools[i].base) && Unused(r.value.tools[i].base, NewClient(env).value)
  {
    var kinds := Catalogue(Included(opts));
    var built := BuildTools(env, kinds);
    if built.Err? {
      return Err(built.error);
    }
    var tk := new Toolkit(built.value);
    assert tk.Kinds() == kinds;
    return Ok(tk);
  }

  /** The constructor loop of `NewToolkit` over the tools `kinds`, in order. */
  method BuildTools(env: Env, kinds: seq<Kind>) returns (r: Result<seq<Tool>>)
    requires kinds != []
    ensures r.Err? <==> NewClient(env).Err?
    ensures r.Err? ==> r.error == CreateFailed(kinds[0], NewClient(env).error)
    ensures r.Ok? ==> |r.value| == |kinds| && forall j :: 0 <= j < |kinds| ==>
      && r.value[j].kind == kinds[j]
      && fresh(r.value[j].base) && Unused(r.value[j].base, NewClient(env).value)
  {
    ghost var made := NewClient(env);
    var tools: seq<Tool> := [];
    for i := 0 to |kinds|
      invariant |tools| == i && forall j :: 0 <= j < i ==> tools[j].kind == kinds[j]
      invariant i > 0 ==> made.Ok?
      invariant forall j :: 0 <= j < i ==> made.Ok? && fresh(tools[j].base) && Unused(tools[j].base, made.value)
    {
      var client := NewClient(env);
      if client.Err? {
        return Err(CreateFailed(kinds[i], client.error));
      }
      var t := new Tool(kinds[i], client.value);
      tools := tools + [t];
    }
    return Ok(tools);
  }

  /** A tool base as its constructor leaves it: over `client`, with no handler and nothing
      delivered. */
  predicate Unused(b: BaseTool, client: Client)
    reads b
  {
    b.client == client && b.callbacksHandler == None && b.delivered == []
  }

  // ================================================================== properties

  /** The lookup predicate: a tool of the given name. */
  function Named(name: string): Kind -> bool
  {
    (k: Kind) => Name(k) == name
  }

  lemma NamesDifferFrom(lo: nat, hi: nat)
    requires lo <= hi <= 18
    ensures forall i, j :: lo <= i < hi && i < j < 18 ==> Name(Catalogue(true)[i]) != Name(Catalogue(true)[j])
  {
  }

  /** No two tools of a toolkit share a name. */
  lemma CatalogueDistinct(includeReleaseTools: bool)
    ensures Distinct(Catalogue(includeReleaseTools), Name)
  {
    NamesDifferFrom(0, 6);
    NamesDifferFrom(6, 12);
    NamesDifferFrom(12, 18);
    assert Catalogue(includeReleaseTools) == Catalogue(true)[..|Catalogue(includeReleaseTools)|];
  }

  /** A release tool is in the toolkit exactly when release tools were asked for. */
  lemma ReleaseToolsOnRequest(includeReleaseTools: bool, k: Kind)
    requires k.IsRelease()
    ensures k in Catalogue(includeReleaseTools) <==> includeReleaseTools
  {
    if includeReleaseTools {
      assert k in ReleaseKinds;
    }
  }

  /** Looking up a tool by its own name finds that tool when names are distinct. */
  lemma FindsOwnName(kinds: seq<Kind>, i: nat)
    requires i < |kinds| && Distinct(kinds, Name)
    ensures FirstWhere(kinds, Named(Name(kinds[i]))) == i
  {
    var p := Named(Name(kinds[i]));
    assert p(kinds[i]);
    forall j | 0 <= j < i ensures !p(kinds[j]) {
      assert Name(kinds[j]) != Name(kinds[i]);
    }
  }

  /** In a toolkit as `NewToolkit` builds it, every listed name leads back to its own tool. */
  lemma ListedNamesFound(kinds: seq<Kind>, includeReleaseTools: bool, i: nat)
    requires kinds == Catalogue(includeReleaseTools) && i < |kinds|
    ensures FirstWhere(kinds, Named(Name(kinds[i]))) == i
  {
    CatalogueDistinct(includeReleaseTools);
    FindsOwnName(kinds, i);
  }

  /** A name no tool has finds nothing. */
  lemma UnknownNameMissing(includeReleaseTools: bool)
    ensures FirstWhere(Catalogue(includeReleaseTools), Named("NonExistent Tool")) == -1
  {
    var kinds := Catalogue(includeReleaseTools);
    forall j | 0 <= j < |kinds| ensures !Named("NonExistent Tool")(kinds[j]) {
      assert |Name(kinds[j])| != |"NonExistent Tool"| || Name(kinds[j])[0] != 'N';
    }
  }
}
