/** The GitHub API wrapper of util/github/wrapper.go: configuration, the operations an agent
    selects by mode name, the protected-branch guard on every write, and the two operations
    that move the active branch. Every call to GitHub is an answer read from a `Remote`. */
module GitHubWrapper {
  import opened Results
  import opened Text
  import opened Decimal
  import opened Environment
  import Builder = Listing

  // ================================================================== configuration

  datatype Config = Config(
    repository: string,
    appID: string,
    privateKey: string,
    activeBranch: string,
    baseBranch: string)

  /** What a nil configuration stands for. */
  const NoConfig: Config := Config("", "", "", "", "")

  /** An empty setting falls back to its environment variable. */
  function Effective(config: Option<Config>, env: Env): (c: Config)
    ensures config.Some? && config.value.repository != "" ==> c.repository == config.value.repository
    ensures (config.None? || config.value.repository == "") ==> c.repository == Getenv(env, "GITHUB_REPOSITORY")
    ensures config.Some? && config.value.appID != "" ==> c.appID == config.value.appID
    ensures (config.None? || config.value.appID == "") ==> c.appID == Getenv(env, "GITHUB_APP_ID")
    ensures config.Some? && config.value.privateKey != "" ==> c.privateKey == config.value.privateKey
    ensures (config.None? || config.value.privateKey == "") ==> c.privateKey == Getenv(env, "GITHUB_APP_PRIVATE_KEY")
  {
    var c := if config.Some? then config.value else NoConfig;
    c.(repository := if c.repository == "" then Getenv(env, "GITHUB_REPOSITORY") else c.repository,
       appID := if c.appID == "" then Getenv(env, "GITHUB_APP_ID") else c.appID,
       privateKey := if c.privateKey == "" then Getenv(env, "GITHUB_APP_PRIVATE_KEY") else c.privateKey)
  }

  /** The state a constructed wrapper starts from. */
  datatype Setup = Setup(
    owner: string,
    repoName: string,
    appID: string,
    privateKey: string,
    activeBranch: string,
    baseBranch: string)

  /** `NewGitHubAPIWrapper`: fill in from the environment, require the three settings in
      order, split the repository into owner and name, then ask GitHub for the repository
      (`repository` is its answer: the default branch, or the error). */
  function Configure(config: Option<Config>, env: Env, repository: Result<string>): (r: Result<Setup>)
    ensures var c := Effective(config, env);
      r.Ok? <==> c.repository != "" && c.appID != "" && c.privateKey != ""
                 && |Split(c.repository, '/')| == 2 && repository.Ok?
    ensures r.Ok? ==> var c := Effective(config, env);
      && r.value.owner + "/" + r.value.repoName == c.repository
      && '/' !in r.value.owner && '/' !in r.value.repoName
      && r.value.appID == c.appID && r.value.privateKey == c.privateKey
    ensures r.Ok? ==> var c := if config.Some? then config.value else NoConfig;
      && r.value.baseBranch == (if c.baseBranch == "" then repository.value else c.baseBranch)
      && r.value.activeBranch == (if c.activeBranch == "" then repository.value else c.activeBranch)
  {
    var c := Effective(config, env);
    if c.repository == "" then Err("GITHUB_REPOSITORY is required")
    else if c.appID == "" then Err("GITHUB_APP_ID is required")
    else if c.privateKey == "" then Err("GITHUB_APP_PRIVATE_KEY is required")
    else
      var parts := Split(c.repository, '/');
      if |parts| != 2 then Err("invalid repository format: " + c.repository + " (expected owner/repo)")
      else if repository.Err? then Err("failed to get repository: " + repository.error)
      else
        JoinSplit(c.repository, '/');
        var d := repository.value;
        Ok(Setup(parts[0], parts[1], c.appID, c.privateKey,
                 if c.activeBranch == "" then d else c.activeBranch,
                 if c.baseBranch == "" then d else c.baseBranch))
  }

  /** The settings are checked in the order repository, app id, private key, then the
      repository's shape, and only then is GitHub asked. */
  lemma ConfigureErrors(config: Option<Config>, env: Env, repository: Result<string>)
    ensures var c := Effective(config, env); var r := Configure(config, env, repository);
      && (c.repository == "" ==> r == Err("GITHUB_REPOSITORY is required"))
      && (c.repository != "" && c.appID == "" ==> r == Err("GITHUB_APP_ID is required"))
      && (c.repository != "" && c.appID != "" && c.privateKey == "" ==> r == Err("GITHUB_APP_PRIVATE_KEY is required"))
      && (c.repository != "" && c.appID != "" && c.privateKey != "" && |Split(c.repository, '/')| != 2
          ==> r == Err("invalid repository format: " + c.repository + " (expected owner/repo)"))
  {
  }

  /** An `owner/repo` pair made of two slash-free names is accepted and split back apart. */
  lemma ConfigureOwnerRepo(owner: string, repo: string, appID: string, key: string, env: Env, branch: string)
    requires '/' !in owner && '/' !in repo && appID != "" && key != ""
    ensures var r := Configure(Some(Config(owner + "/" + repo, appID, key, "", "")), env, Ok(branch));
      r == Ok(Setup(owner, repo, appID, key, branch, branch))
  {
    var s := owner + "/" + repo;
    SplitJoin([owner, repo], '/');
    assert Join([owner, repo], "/") == s;
  }

  // ================================================================== what GitHub answers

  /** What `GetContents` answers for one path: an error, a file (whose content may fail to
      decode), or a directory, for which Go hands back a nil file. */
  datatype Fetched = Missing(error: string) | FileAt(content: Result<string>) | DirectoryAt

  /** A directory listing as the recursive walk sees it: either the listing failed, or its
      entries, each sub-directory carrying its own listing. */
  datatype Listing = Unreadable(error: string) | Entries(items: seq<Entry>)
  datatype Entry = Leaf(path: string) | Dir(path: string, listing: Listing)

  datatype GhIssue = GhIssue(title: string, number: int, login: Option<string>, state: string, isPull: bool)
  datatype GhPull = GhPull(title: string, number: int, commits: int, comments: int)
  datatype Release = Release(name: string, tag: string, body: string)
  datatype SearchPage<T> = SearchPage(total: int, items: seq<T>)

  /** The JSON text `GetIssue` builds, or which of its two fetches failed. */
  datatype IssueFetch = IssueJson(text: string) | IssueFailed(error: string) | CommentsFailed(error: string)

  /** Every request that changes something on GitHub. */
  datatype Request =
    | NewRef(ref: string, sha: string)
    | NewFile(path: string, message: string, content: string, branch: string)
    | FileUpdate(path: string, message: string, content: string, branch: string)
    | FileDeletion(path: string, message: string, branch: string)
    | NewPull(title: string, body: string, head: string, base: string)
    | NewComment(issue: int, body: string)

  /** GitHub's answers. `send` answers a write with the number it assigned (the pull request
      number; unused otherwise) or an error message. */
  datatype Remote = Remote(
    openIssues: Result<seq<GhIssue>>,
    openPulls: Result<seq<GhPull>>,
    branches: Result<seq<string>>,
    getRef: string -> Result<string>,
    fetch: (string, string) -> Fetched,
    list: (string, string) -> Listing,
    send: Request -> Result<int>,
    issueJson: int -> IssueFetch,
    pullJson: int -> Result<string>,
    searchIssues: string -> Result<SearchPage<GhIssue>>,
    searchCode: string -> Result<SearchPage<string>>,
    latestRelease: Result<Release>,
    releases: Result<seq<Release>>,
    releaseByTag: string -> Result<Release>)

  // ================================================================== outcomes

  /** A Go `(string, error)` result, or a run-time panic. */
  datatype Outcome = Done(text: string) | Failed(error: string) | Panic(reason: string)

  /** An outcome together with the writes sent to GitHub on the way, in order. */
  datatype Step = Step(out: Outcome, sent: seq<Request>)

  /** The branches an operation sees. */
  datatype Branches = Branches(owner: string, repoName: string, active: string, base: string)

  predicate Protected(b: Branches) { b.active == b.base }

  const ProtectedHead: string := "You're attempting to commit to the directly to the "
  const ProtectedTail: string := " branch, which is protected. Please create a new branch and try again."

  /** The refusal of a write while the active branch is the base branch. */
  function ProtectedReply(base: string): string
  {
    ProtectedHead + base + ProtectedTail
  }

  // ================================================================== parsing remote records

  /** `Issue`: title, number and the opener's login ("" when GitHub names no user). */
  datatype Issue = Issue(title: string, number: int, openedBy: string)

  /** `PullRequest`: the counts are kept as their decimal text. */
  datatype PullRequest = PullRequest(title: string, number: int, commits: string, comments: string)

  function ParsedIssue(i: GhIssue): Issue
  {
    Issue(i.title, i.number, if i.login.Some? then i.login.value else "")
  }

  function ParsedPull(p: GhPull): PullRequest
  {
    PullRequest(p.title, p.number, Itoa(p.commits), Itoa(p.comments))
  }

  /** `ParseIssues`: one record per issue, in order. */
  method ParseIssues(issues: seq<GhIssue>) returns (parsed: seq<Issue>)
    ensures |parsed| == |issues|
    ensures forall k :: 0 <= k < |issues| ==> parsed[k] == ParsedIssue(issues[k])
  {
    parsed := [];
    for i := 0 to |issues|
      invariant |parsed| == i
      invariant forall k :: 0 <= k < i ==> parsed[k] == ParsedIssue(issues[k])
    {
      parsed := parsed + [ParsedIssue(issues[i])];
    }
  }

  /** `ParsePullRequests`: one record per pull request, in order, counts spelled in decimal. */
  method ParsePullRequests(prs: seq<GhPull>) returns (parsed: seq<PullRequest>)
    ensures |parsed| == |prs|
    ensures forall k :: 0 <= k < |prs| ==> parsed[k] == ParsedPull(prs[k])
  {
    parsed := [];
    for i := 0 to |prs|
      invariant |parsed| == i
      invariant forall k :: 0 <= k < i ==> parsed[k] == ParsedPull(prs[k])
    {
      parsed := parsed + [ParsedPull(prs[i])];
    }
  }

  /** The commit count of a parsed pull request reads back as the count GitHub reported. */
  lemma ParsedPullCounts(p: GhPull)
    requires InRange(p.commits) && InRange(p.comments)
    ensures Atoi(ParsedPull(p).commits) == Some(p.commits)
    ensures Atoi(ParsedPull(p).comments) == Some(p.comments)
  {
    AtoiItoa(p.commits);
    AtoiItoa(p.comments);
  }

  predicate NotPull(x: GhIssue) { !x.isPull }

  /** The filtering loop of `GetIssues`: the issues that are not pull requests, in their
      order and with their repetitions. */
  method IssuesOnly(xs: seq<GhIssue>) returns (r: seq<GhIssue>)
    ensures r == Builder.Kept(xs, NotPull)
    ensures forall x :: x in r <==> x in xs && !x.isPull
  {
    r := [];
    for i := 0 to |xs|
      invariant r == Builder.Kept(xs[..i], NotPull)
    {
      assert xs[..i + 1][..i] == xs[..i];
      if !xs[i].isPull {
        r := r + [xs[i]];
      }
    }
    assert xs[..|xs|] == xs;
    Builder.KeptMembers(xs, NotPull);
  }

  // `%+v` of the parsed records: `{Field:value ...}`, a slice as `[a b]`.

  function ShowIssue(i: Issue): string
  {
    "{Title:" + i.title + " Number:" + Itoa(i.number) + " OpenedBy:" + i.openedBy + "}"
  }

  function ShowPull(p: PullRequest): string
  {
    "{Title:" + p.title + " Number:" + Itoa(p.number) + " Commits:" + p.commits
      + " Comments:" + p.comments + "}"
  }

  function ShowList(items: seq<string>): string
  {
    "[" + Join(items, " ") + "]"
  }

  // ================================================================== read-only operations

  /** The `%+v` items of the parsed issues, one per issue, in order. */
  function IssueItems(issues: seq<GhIssue>): (r: seq<string>)
    ensures |r| == |issues| && forall k :: 0 <= k < |issues| ==> r[k] == ShowIssue(ParsedIssue(issues[k]))
  {
    seq(|issues|, k requires 0 <= k < |issues| => ShowIssue(ParsedIssue(issues[k])))
  }

  /** The `%+v` items of the parsed pull requests, one per pull request, in order. */
  function PullItems(prs: seq<GhPull>): (r: seq<string>)
    ensures |r| == |prs| && forall k :: 0 <= k < |prs| ==> r[k] == ShowPull(ParsedPull(prs[k]))
  {
    seq(|prs|, k requires 0 <= k < |prs| => ShowPull(ParsedPull(prs[k])))
  }

  const NoIssues: string := "No open issues available"
  const NoPulls: string := "No open pull requests available"

  /** `GetIssues`: the open issues that are not pull requests. */
  function GetIssues(remote: Remote): (r: Outcome)
    ensures r.Failed? ==> HasPrefix(r.error, "failed to ")
    ensures remote.openIssues.Err? ==> r == Failed("failed to fetch issues: " + remote.openIssues.error)
    ensures remote.openIssues.Ok? ==>
      (r == Done(NoIssues) <==> forall x :: x in remote.openIssues.value ==> x.isPull)
    ensures remote.openIssues.Ok? && Builder.Kept(remote.openIssues.value, NotPull) != [] ==>
      var issues := Builder.Kept(remote.openIssues.value, NotPull);
      r == Done("Found " + Itoa(|issues|) + " issues:\n" + ShowList(IssueItems(issues)))
  {
    match remote.openIssues
    case Err(e) => Failed("failed to fetch issues: " + e)
    case Ok(xs) =>
      var issues := Builder.Kept(xs, NotPull);
      Builder.KeptMembers(xs, NotPull);
      if issues == [] then Done(NoIssues)
      else
        var t := "Found " + Itoa(|issues|) + " issues:\n" + ShowList(IssueItems(issues));
        assert t[0] != NoIssues[0];
        Done(t)
  }

  /** `ListOpenPullRequests`. */
  function ListOpenPullRequests(remote: Remote): (r: Outcome)
    ensures r.Failed? ==> HasPrefix(r.error, "failed to ")
    ensures remote.openPulls.Err? ==> r == Failed("failed to fetch pull requests: " + remote.openPulls.error)
    ensures remote.openPulls.Ok? ==> (r == Done(NoPulls) <==> remote.openPulls.value == [])
    ensures remote.openPulls.Ok? && remote.openPulls.value != [] ==>
      var prs := remote.openPulls.value;
      r == Done("Found " + Itoa(|prs|) + " pull requests:\n" + ShowList(PullItems(prs)))
  {
    match remote.openPulls
    case Err(e) => Failed("failed to fetch pull requests: " + e)
    case Ok(prs) =>
      if prs == [] then Done(NoPulls)
      else
        var t := "Found " + Itoa(|prs|) + " pull requests:\n" + ShowList(PullItems(prs));
        assert t[0] != NoPulls[0];
        Done(t)
  }

  /** `listFiles`: a depth-first walk, files in listing order; a sub-directory that cannot be
      read is skipped, an unreadable top directory is an error. */
  function Files(l: Listing): (r: Result<seq<string>>)
    ensures r.Err? <==> l.Unreadable?
  {
    match l
    case Unreadable(e) => Err(e)
    case Entries(items) => Ok(FilesOf(items))
  }

  function FilesOf(items: seq<Entry>): seq<string>
    decreases items
  {
    if items == [] then []
    else FilesOf(items[..|items| - 1]) + EntryFiles(items[|items| - 1])
  }

  function EntryFiles(e: Entry): seq<string>
    decreases e
  {
    match e
    case Leaf(p) => [p]
    case Dir(_, Unreadable(_)) => []
    case Dir(_, Entries(items)) => FilesOf(items)
  }

  /** A path is listed when some entry of a readable directory reached through readable
      directories is a file with that path. */
  predicate Listed(l: Listing, p: string)
    decreases l
  {
    l.Entries? && exists i :: 0 <= i < |l.items| && EntryHolds(l.items[i], p)
  }

  predicate EntryHolds(e: Entry, p: string)
    decreases e
  {
    match e
    case Leaf(q) => q == p
    case Dir(_, sub) => Listed(sub, p)
  }

  /** The walk lists exactly the reachable files. */
  lemma {:induction false} FilesListed(l: Listing, p: string)
    requires l.Entries?
    ensures p in Files(l).value <==> Listed(l, p)
    decreases l, 1
  {
    FilesOfHolds(l.items, p);
  }

  lemma {:induction false} FilesOfHolds(items: seq<Entry>, p: string)
    ensures p in FilesOf(items) <==> exists i :: 0 <= i < |items| && EntryHolds(items[i], p)
    decreases items
  {
    if items != [] {
      var n := |items| - 1;
      FilesOfHolds(items[..n], p);
      EntryFilesHolds(items[n], p);
      if p in FilesOf(items) {
        if p in FilesOf(items[..n]) {
          var i :| 0 <= i < n && EntryHolds(items[..n][i], p);
          assert items[..n][i] == items[i];
        }
      } else {
        forall i | 0 <= i < |items| ensures !EntryHolds(items[i], p) {
          if i < n { assert items[..n][i] == items[i]; }
        }
      }
    }
  }

  lemma {:induction false} EntryFilesHolds(e: Entry, p: string)
    ensures p in EntryFiles(e) <==> EntryHolds(e, p)
    decreases e
  {
    match e
    case Leaf(_) =>
    case Dir(_, Unreadable(_)) =>
    case Dir(_, Entries(items)) =>
      FilesOfHolds(items, p);
  }

  /** `listFiles` as the source runs it: a loop over the entries that recurses into each
      sub-directory. */
  method ListFiles(l: Listing) returns (r: Result<seq<string>>)
    ensures r == Files(l)
    decreases l
  {
    match l
    case Unreadable(e) => return Err(e);
    case Entries(items) =>
      var files: seq<string> := [];
      for i := 0 to |items|
        invariant files == FilesOf(items[..i])
      {
        assert items[..i + 1][..i] == items[..i];
        match items[i]
        case Leaf(p) =>
          files := files + [p];
        case Dir(_, sub) =>
          var subFiles := ListFiles(sub);
          if subFiles.Ok? {
            files := files + subFiles.value;
          }
      }
      assert items[..|items|] == items;
      return Ok(files);
  }

  /** A header line and then lines without line breaks split back into the header and
      those lines. */
  lemma HeaderThenLines(header: string, lines: seq<string>)
    requires '\n' !in header && lines != []
    requires forall i :: 0 <= i < |lines| ==> '\n' !in lines[i]
    ensures Split(header + "\n" + Join(lines, "\n"), '\n') == [header] + lines
  {
    SplitCons(header, '\n', Join(lines, "\n"));
    SplitJoin(lines, '\n');
  }

  /** A count spelled between two texts without line breaks adds none. */
  lemma CountLine(pre: string, n: int, post: string)
    requires '\n' !in pre && '\n' !in post
    ensures '\n' !in pre + Itoa(n) + post
  {
    ItoaChars(n);
    assert IsSpace('\n');
  }

  /** The shape of the wrapper's listings: a header that counts the items, then one item
      per line. Without line breaks in the items, it splits back into the header and the
      items. */
  function CountedLines(pre: string, items: seq<string>, post: string): (r: string)
    ensures (&& '\n' !in pre && '\n' !in post && items != []
             && (forall x :: x in items ==> '\n' !in x))
      ==> Split(r, '\n') == [pre + Itoa(|items|) + post] + items
  {
    var header := pre + Itoa(|items|) + post;
    if '\n' !in pre && '\n' !in post && items != [] && forall x :: x in items ==> '\n' !in x then
      CountLine(pre, |items|, post);
      HeaderThenLines(header, items);
      header + "\n" + Join(items, "\n")
    else header + "\n" + Join(items, "\n")
  }

  const MainFiles: string := " files in the main branch:"
  const NoMainFiles: string := "No files found in the main branch"
  const RepoBranches: string := " branches in the repository:"
  const NoBranches: string := "No branches found in the repository"

  function ListFilesInMainBranch(b: Branches, remote: Remote): (r: Outcome)
    ensures r.Failed? ==> HasPrefix(r.error, "failed to ")
    ensures r.Failed? <==> remote.list("", b.base).Unreadable?
    ensures var l := remote.list("", b.base);
      l.Entries? && Files(l).value == [] ==> r == Done(NoMainFiles)
    ensures var l := remote.list("", b.base);
      l.Entries? && Files(l).value != [] ==> r == Done(CountedLines("Found ", Files(l).value, MainFiles))
  {
    match Files(remote.list("", b.base))
    case Err(e) => Failed("failed to list files in main branch: " + e)
    case Ok(files) =>
      if files == [] then Done(NoMainFiles)
      else Done(CountedLines("Found ", files, MainFiles))
  }

  /** Without line breaks in the paths, the main branch's listing splits back into its
      header and exactly the files, in order. */
  lemma MainListingLines(b: Branches, remote: Remote)
    requires remote.list("", b.base).Entries?
    requires Files(remote.list("", b.base)).value != []
    requires forall f :: f in Files(remote.list("", b.base)).value ==> '\n' !in f
    ensures var r := ListFilesInMainBranch(b, remote);
      var files := Files(remote.list("", b.base)).value;
      r.Done? && Split(r.text, '\n') == ["Found " + Itoa(|files|) + MainFiles] + files
  {
    var files := Files(remote.list("", b.base)).value;
    assert '\n' !in "Found " && '\n' !in MainFiles;
    assert ListFilesInMainBranch(b, remote) == Done(CountedLines("Found ", files, MainFiles));
  }

  const NoBotFiles: string := "No files found in branch: `"
  const BotFiles: string := " files in branch `"

  /** What `ListFilesInBotBranch` answers once the walk succeeded. */
  function BotListing(active: string, files: seq<string>): (t: string)
    ensures t != [] && t[0] != 'E'
    ensures files == [] ==> t == NoBotFiles + active + "`"
    ensures files != [] && '\n' !in active && (forall f :: f in files ==> '\n' !in f) ==>
      Split(t, '\n') == ["Found " + Itoa(|files|) + BotFiles + active + "`:"] + files
  {
    if files == [] then NoBotFiles + active + "`"
    else
      assert '\n' !in active ==> '\n' !in BotFiles + active + "`:";
      var post := BotFiles + active + "`:";
      assert "Found " + Itoa(|files|) + post == "Found " + Itoa(|files|) + BotFiles + active + "`:";
      CountedLines("Found ", files, post)
  }

  /** `ListFilesInBotBranch`: errors are reported in the text, never as an error. */
  function ListFilesInBotBranch(b: Branches, remote: Remote): (r: Outcome)
    ensures r.Done?
    ensures HasPrefix(r.text, "Error: ") <==> remote.list("", b.active).Unreadable?
    ensures var l := remote.list("", b.active);
      l.Unreadable? ==> r.text == "Error: " + l.error
    ensures var l := remote.list("", b.active);
      l.Entries? && Files(l).value == [] ==> r.text == NoBotFiles + b.active + "`"
    ensures var l := remote.list("", b.active);
      (&& l.Entries? && Files(l).value != [] && '\n' !in b.active
       && (forall f :: f in Files(l).value ==> '\n' !in f))
      ==> Split(r.text, '\n') == ["Found " + Itoa(|Files(l).value|) + BotFiles + b.active + "`:"] + Files(l).value
  {
    match Files(remote.list("", b.active))
    case Err(e) => Done("Error: " + e)
    case Ok(files) =>
      var t := BotListing(b.active, files);
      Unprefixed(t, "Error: ");
      Done(t)
  }

  function GetFilesFromDirectory(b: Branches, path: string, remote: Remote): (r: Outcome)
    ensures r.Done?
    ensures var l := remote.list(path, b.active);
      l.Entries? && Files(l).value != [] && (forall f :: f in Files(l).value ==> '\n' !in f) ==>
        Split(r.text, '\n') == Files(l).value
  {
    match Files(remote.list(path, b.active))
    case Err(e) => Done("Error: " + e)
    case Ok(files) =>
      if files != [] && forall f :: f in files ==> '\n' !in f then
        SplitJoin(files, '\n');
        Done(Join(files, "\n"))
      else Done(Join(files, "\n"))
  }

  function ListBranchesInRepo(remote: Remote): (r: Outcome)
    ensures r.Failed? ==> HasPrefix(r.error, "failed to ")
    ensures remote.branches.Err? <==> r.Failed?
    ensures remote.branches == Ok([]) ==> r == Done(NoBranches)
    ensures remote.branches.Ok? && remote.branches.value != [] ==>
      r == Done(CountedLines("Found ", remote.branches.value, RepoBranches))
  {
    match remote.branches
    case Err(e) => Failed("failed to list branches: " + e)
    case Ok(names) =>
      if names == [] then Done(NoBranches)
      else Done(CountedLines("Found ", names, RepoBranches))
  }

  /** Without line breaks in the names, the branch listing splits back into its header and
      exactly the branch names, in order. */
  lemma BranchListingLines(remote: Remote)
    requires remote.branches.Ok? && remote.branches.value != []
    requires forall n :: n in remote.branches.value ==> '\n' !in n
    ensures var r := ListBranchesInRepo(remote);
      r.Done? && Split(r.text, '\n') == ["Found " + Itoa(|remote.branches.value|) + RepoBranches] + remote.branches.value
  {
    var names := remote.branches.value;
    assert '\n' !in "Found " && '\n' !in RepoBranches;
    assert ListBranchesInRepo(remote) == Done(CountedLines("Found ", names, RepoBranches));
  }

  /** `ReadFile`: the file's text, or a message in its place; never an error. Reading a
      directory dereferences Go's nil file and panics. */
  function ReadFile(b: Branches, path: string, remote: Remote): (r: Outcome)
    ensures !r.Failed?
    ensures r.Panic? <==> remote.fetch(path, b.active).DirectoryAt?
    ensures remote.fetch(path, b.active).FileAt? && remote.fetch(path, b.active).content.Ok?
      ==> r == Done(remote.fetch(path, b.active).content.value)
  {
    match remote.fetch(path, b.active)
    case Missing(e) => Done("File not found `" + path + "` on branch `" + b.active + "`. Error: " + e)
    case DirectoryAt => Panic("nil file content")
    case FileAt(Err(e)) => Done("Failed to decode file content: " + e)
    case FileAt(Ok(content)) => Done(content)
  }

  /** The first `n` items, none when `n` is not positive. */
  function Take<T>(xs: seq<T>, n: int): (r: seq<T>)
    ensures |r| == if n <= 0 then 0 else if n < |xs| then n else |xs|
    ensures r == xs[..|r|]
  {
    if n <= 0 then [] else if n < |xs| then xs[..n] else xs
  }

  function Shown(total: int): int { if total < 5 then total else 5 }

  function SearchQuery(b: Branches, query: string): string
  {
    query + " repo:" + b.owner + "/" + b.repoName
  }

  function IssueLine(i: GhIssue): string
  {
    "Title: " + i.title + ", Number: " + Itoa(i.number) + ", State: " + i.state
  }

  /** `SearchIssuesAndPRs`: at most five lines after the header. */
  function SearchIssuesAndPRs(b: Branches, query: string, remote: Remote): (r: Outcome)
    ensures r.Done?
    ensures var found := remote.searchIssues(SearchQuery(b, query));
      found.Ok? && found.value.total != 0 && (forall i :: i in found.value.items ==> '\n' !in IssueLine(i)) ==>
        |Split(r.text, '\n')| <= 6
  {
    match remote.searchIssues(SearchQuery(b, query))
    case Err(e) => Done("Search failed: " + e)
    case Ok(page) =>
      if page.total == 0 then Done("0 results found.")
      else
        var top := Take(page.items, Shown(page.total));
        var lines := ["Top " + Itoa(Shown(page.total)) + " results:"]
          + seq(|top|, k requires 0 <= k < |top| => IssueLine(top[k]));
        if forall i :: i in page.items ==> '\n' !in IssueLine(i) then
          ItoaChars(Shown(page.total));
          assert '\n' !in lines[0];
          SplitJoin(lines, '\n');
          Done(Join(lines, "\n"))
        else Done(Join(lines, "\n"))
  }

  /** The header of a code search that found `total` hits. */
  function CodeHeader(total: int): string
  {
    "Showing top " + Itoa(Shown(total)) + " of " + Itoa(total) + " results:"
  }

  /** `SearchCode`: each of the first five hits with the file read from the active branch. */
  function SearchCode(b: Branches, query: string, remote: Remote): (r: Outcome)
    ensures !r.Failed?
    ensures var found := remote.searchCode(SearchQuery(b, query));
      r.Panic? <==> (found.Ok? && found.value.total != 0
        && exists p :: p in Take(found.value.items, Shown(found.value.total)) && remote.fetch(p, b.active).DirectoryAt?)
    ensures var found := remote.searchCode(SearchQuery(b, query));
      && (found.Err? ==> r == Done("Search failed: " + found.error))
      && (found.Ok? && found.value.total == 0 ==> r == Done("0 results found."))
    ensures var found := remote.searchCode(SearchQuery(b, query));
      found.Ok? && found.value.total != 0 && r.Done? ==>
        var blocks := CodeBlocks(b, Take(found.value.items, Shown(found.value.total)), remote);
        blocks.Some? && r.text == Join([CodeHeader(found.value.total)] + blocks.value, "\n")
  {
    match remote.searchCode(SearchQuery(b, query))
    case Err(e) => Done("Search failed: " + e)
    case Ok(page) =>
      if page.total == 0 then Done("0 results found.")
      else
        var top := Take(page.items, Shown(page.total));
        match CodeBlocks(b, top, remote)
        case None => Panic("nil file content")
        case Some(blocks) => Done(Join([CodeHeader(page.total)] + blocks, "\n"))
  }

  /** The block a code hit contributes: its path and the file read from the active branch. */
  function CodeBlock(path: string, content: string): string
  {
    "Filepath: `" + path + "`\nFile contents: " + content + "\n<END OF FILE>"
  }

  /** One block per hit, in order; None when reading one of them panics. */
  function CodeBlocks(b: Branches, paths: seq<string>, remote: Remote): (r: Option<seq<string>>)
    ensures r.None? <==> exists p :: p in paths && remote.fetch(p, b.active).DirectoryAt?
    ensures r.Some? ==> |r.value| == |paths| && forall k :: 0 <= k < |paths| ==>
      ReadFile(b, paths[k], remote).Done? && r.value[k] == CodeBlock(paths[k], ReadFile(b, paths[k], remote).text)
  {
    if paths == [] then Some([])
    else
      match ReadFile(b, paths[0], remote)
      case Done(content) =>
        var rest := CodeBlocks(b, paths[1..], remote);
        if rest.None? then None
        else
          var r := [CodeBlock(paths[0], content)] + rest.value;
          assert forall k :: 1 <= k < |paths| ==> paths[k] == paths[1..][k - 1] && r[k] == rest.value[k - 1];
          Some(r)
      case _ => None
  }

  /** A text that opens with another letter does not open with `p`. */
  lemma Unprefixed(s: string, p: string)
    requires s != [] && p != [] && s[0] != p[0]
    ensures !HasPrefix(s, p)
  {
    if |p| <= |s| {
      assert s[..|p|][0] == s[0];
    }
  }

  function GetLatestRelease(remote: Remote): (r: Outcome)
    ensures r.Done?
    ensures HasPrefix(r.text, "Failed to get latest release: ") <==> remote.latestRelease.Err?
    ensures remote.latestRelease.Ok? ==> var rel := remote.latestRelease.value;
      r.text == "Latest title: " + rel.name + " tag: " + rel.tag + " body: " + rel.body
  {
    match remote.latestRelease
    case Err(e) => Done("Failed to get latest release: " + e)
    case Ok(rel) =>
      var t := "Latest title: " + rel.name + " tag: " + rel.tag + " body: " + rel.body;
      Unprefixed(t, "Failed to get latest release: ");
      Done(t)
  }

  /** The line `GetReleases` writes for one release. */
  function ReleaseLine(x: Release): string
  {
    "Title: " + x.name + ", Tag: " + x.tag + ", Body: " + x.body
  }

  /** One line per release, in order. */
  function ReleaseLines(rels: seq<Release>): (r: seq<string>)
    ensures |r| == |rels| && forall k :: 0 <= k < |rels| ==> r[k] == ReleaseLine(rels[k])
  {
    seq(|rels|, k requires 0 <= k < |rels| => ReleaseLine(rels[k]))
  }

  /** The numbered header and one line per release. */
  function ReleaseListing(rels: seq<Release>): (r: string)
    requires rels != []
    ensures r != [] && r[0] == 'T'
    ensures (forall x :: x in rels ==> '\n' !in x.name + x.tag + x.body) ==>
      Split(r, '\n') == ["Top " + Itoa(|rels|) + " results:"] + ReleaseLines(rels)
  {
    var lines := ReleaseLines(rels);
    if forall x :: x in rels ==> '\n' !in x.name + x.tag + x.body then
      ReleaseLinesUnbroken(rels);
      CountedLines("Top ", lines, " results:")
    else CountedLines("Top ", lines, " results:")
  }

  const NoReleases: string := "No releases found."

  function GetReleases(remote: Remote): (r: Outcome)
    ensures r.Done?
    ensures HasPrefix(r.text, "Failed to get releases: ") <==> remote.releases.Err?
    ensures remote.releases == Ok([]) ==> r.text == NoReleases
    ensures (&& remote.releases.Ok? && remote.releases.value != []
             && (forall x :: x in remote.releases.value ==> '\n' !in x.name + x.tag + x.body))
      ==> Split(r.text, '\n') == ["Top " + Itoa(|remote.releases.value|) + " results:"] + ReleaseLines(remote.releases.value)
  {
    match remote.releases
    case Err(e) => Done("Failed to get releases: " + e)
    case Ok(rels) =>
      if rels == [] then
        Unprefixed(NoReleases, "Failed to get releases: ");
        Done(NoReleases)
      else
        Unprefixed(ReleaseListing(rels), "Failed to get releases: ");
        Done(ReleaseListing(rels))
  }

  /** No line of the release listing holds a line break when no release field does. */
  lemma ReleaseLinesUnbroken(rels: seq<Release>)
    requires forall x :: x in rels ==> '\n' !in x.name + x.tag + x.body
    ensures forall l :: l in ReleaseLines(rels) ==> '\n' !in l
  {
    var lines := ReleaseLines(rels);
    forall k | 0 <= k < |rels|
      ensures '\n' !in lines[k]
    {
      var x := rels[k];
      assert x in rels;
      assert '\n' !in x.name && '\n' !in x.tag && '\n' !in x.body by {
        assert x.name + x.tag + x.body == x.name + (x.tag + x.body);
      }
    }
  }

  function GetRelease(tag: string, remote: Remote): (r: Outcome)
    ensures r.Done?
    ensures HasPrefix(r.text, "Failed to get release: ") <==> remote.releaseByTag(tag).Err?
    ensures remote.releaseByTag(tag).Ok? ==> var rel := remote.releaseByTag(tag).value;
      r.text == "Release: " + rel.name + " tag: " + rel.tag + " body: " + rel.body
  {
    match remote.releaseByTag(tag)
    case Err(e) => Done("Failed to get release: " + e)
    case Ok(rel) =>
      var t := "Release: " + rel.name + " tag: " + rel.tag + " body: " + rel.body;
      Unprefixed(t, "Failed to get release: ");
      Done(t)
  }

  // ================================================================== writes

  /** `CreatePullRequest`: the title is the first line, the body the lines after the second
      (the second line is always dropped); head is the active branch, base the base branch. */
  function CreatePullRequest(b: Branches, query: string, remote: Remote): (r: Step)
    ensures r.out.Done?
    ensures Protected(b) ==> r.sent == []
    ensures !Protected(b) ==>
      (&& |r.sent| == 1 && r.sent[0].NewPull?
       && r.sent[0].head == b.active && r.sent[0].base == b.base
       && r.sent[0].title == Split(query, '\n')[0] && '\n' !in r.sent[0].title)
  {
    if b.base == b.active then
      Step(Done(PullFromBase), [])
    else
      var lines := Split(query, '\n');
      var title := lines[0];
      var body := if |lines| > 2 then Join(lines[2..], "\n") else "";
      var req := NewPull(title, body, b.active, b.base);
      match remote.send(req)
      case Err(e) => Step(Done("Unable to make pull request due to error:\n" + e), [req])
      case Ok(n) => Step(Done("Successfully created PR number " + Itoa(n)), [req])
  }

  const PullFromBase: string :=
    "Cannot make a pull request because commits are already in the main or master branch."

  /** A query of a title line, a second line and a body becomes a pull request with that
      title and body. */
  lemma PullRequestParts(b: Branches, title: string, second: string, body: string, remote: Remote)
    requires !Protected(b) && '\n' !in title && '\n' !in second
    ensures CreatePullRequest(b, title + "\n" + second + "\n" + body, remote).sent
      == [NewPull(title, body, b.active, b.base)]
  {
    var q := title + "\n" + second + "\n" + body;
    assert q == title + "\n" + (second + "\n" + body);
    SplitCons(title, '\n', second + "\n" + body);
    assert second + "\n" + body == second + ['\n'] + body;
    SplitCons(second, '\n', body);
    var lines := Split(q, '\n');
    assert lines == [title, second] + Split(body, '\n');
    assert lines[2..] == Split(body, '\n');
    JoinSplit(body, '\n');
  }

  /** A query without a second line leaves the body empty. */
  lemma PullRequestTitleOnly(b: Branches, title: string, remote: Remote)
    requires !Protected(b) && '\n' !in title
    ensures CreatePullRequest(b, title, remote).sent == [NewPull(title, "", b.active, b.base)]
  {
    NoChar(title, '\n');
  }

  /** `CommentOnIssue`: an issue number (the exact text before the first blank line) and the
      comment after it. No branch guard: commenting is allowed anywhere. */
  function CommentOnIssue(query: string, remote: Remote): (r: Step)
    ensures r.out.Done?
    ensures Cut(query, "\n\n").None? ==> r == Step(Done("Invalid comment format"), [])
    ensures r.sent != [] ==> (|r.sent| == 1 && r.sent[0].NewComment? && Cut(query, "\n\n").Some?
      && Atoi(Cut(query, "\n\n").value.0) == Some(r.sent[0].issue)
      && r.sent[0].body == Cut(query, "\n\n").value.1)
  {
    match Cut(query, "\n\n")
    case None => Step(Done("Invalid comment format"), [])
    case Some((num, comment)) =>
      match Atoi(num)
      case None => Step(Done("Invalid issue number: " + num), [])
      case Some(n) =>
        var req := NewComment(n, comment);
        match remote.send(req)
        case Err(e) => Step(Done("Unable to make comment due to error:\n" + e), [req])
        case Ok(_) => Step(Done("Commented on issue " + Itoa(n)), [req])
  }

  /** The canonical comment query posts exactly that comment on exactly that issue. */
  lemma CommentParts(n: int, comment: string, remote: Remote)
    requires InRange(n)
    ensures CommentOnIssue(Itoa(n) + "\n\n" + comment, remote).sent == [NewComment(n, comment)]
  {
    assert IsSpace('\n');
    ItoaChars(n);
    CutFresh(Itoa(n), "\n\n", comment);
    AtoiItoa(n);
  }

  /** `CreateFile`: the first line is the path, the rest the contents; an existing path is
      refused. */
  function CreateFile(b: Branches, query: string, remote: Remote): (r: Step)
    ensures r.out.Done?
    ensures Protected(b) ==> r == Step(Done(ProtectedReply(b.base)), [])
    ensures r.sent != [] ==> (!Protected(b) && |r.sent| == 1
      && var w := r.sent[0];
        w.NewFile? && query == w.path + "\n" + w.content && '\n' !in w.path
        && w.message == "Create " + w.path && w.branch == b.active
        && remote.fetch(w.path, b.active).Missing?)
  {
    if b.active == b.base then Step(Done(ProtectedReply(b.base)), [])
    else
      match Cut(query, "\n")
      case None => Step(Done("Invalid file format"), [])
      case Some((path, contents)) =>
        OccursAtChar(query, '\n', |path|);
        assert '\n' !in path by {
          forall j | 0 <= j < |path| ensures path[j] != '\n' {
            OccursAtChar(query, '\n', j);
          }
        }
        if !remote.fetch(path, b.active).Missing? then
          Step(Done("File already exists at `" + path + "` on branch `" + b.active + UseUpdate), [])
        else
          var req := NewFile(path, "Create " + path, contents, b.active);
          match remote.send(req)
          case Err(e) => Step(Done("Unable to make file due to error:\n" + e), [req])
          case Ok(_) => Step(Done("Created file " + path), [req])
  }

  const UseUpdate: string := "`. You must use `update_file` to modify it."

  /** `DeleteFile`: the whole query is the path. */
  function DeleteFile(b: Branches, path: string, remote: Remote): (r: Step)
    ensures !r.out.Failed?
    ensures Protected(b) ==> r == Step(Done(ProtectedReply(b.base)), [])
    ensures r.sent != [] ==> !Protected(b) && r.sent == [FileDeletion(path, "Delete " + path, b.active)]
    ensures r.out.Panic? <==> !Protected(b) && remote.fetch(path, b.active).DirectoryAt?
  {
    if b.active == b.base then Step(Done(ProtectedReply(b.base)), [])
    else
      match remote.fetch(path, b.active)
      case Missing(e) => Step(Done("Unable to delete file due to error:\n" + e), [])
      case DirectoryAt => Step(Panic("nil file content"), [])
      case FileAt(_) =>
        var req := FileDeletion(path, "Delete " + path, b.active);
        match remote.send(req)
        case Err(e) => Step(Done("Unable to delete file due to error:\n" + e), [req])
        case Ok(_) => Step(Done("Deleted file " + path), [req])
  }

  // ------------------------------------------------------------------ the update block

  const OldStart: string := "OLD <<<<"
  const OldEnd: string := ">>>> OLD"
  const NewStart: string := "NEW <<<<"
  const NewEnd: string := ">>>> NEW"

  /** What to replace and by what. */
  datatype Edit = Edit(target: string, repl: string)

  /** The markers' verdict: one is missing, an end marker comes before its start marker ends
      (Go's slice expression then panics), or the trimmed old and new texts. */
  datatype Extracted = NoMarkers | Inverted | Extracted(edit: Edit)

  /** Each marker is located by its first occurrence; the texts are what lies between the
      end of a start marker and its end marker, trimmed. */
  function ExtractEdit(content: string): (r: Extracted)
    ensures r.NoMarkers? <==> !Contains(content, OldStart) || !Contains(content, OldEnd)
                              || !Contains(content, NewStart) || !Contains(content, NewEnd)
    ensures r.Extracted? ==> var e := r.edit;
      (e.target == [] || (!IsSpace(e.target[0]) && !IsSpace(e.target[|e.target| - 1])))
      && (e.repl == [] || (!IsSpace(e.repl[0]) && !IsSpace(e.repl[|e.repl| - 1])))
  {
    var os := IndexOf(content, OldStart);
    var oe := IndexOf(content, OldEnd);
    var ns := IndexOf(content, NewStart);
    var ne := IndexOf(content, NewEnd);
    if os == -1 || oe == -1 || ns == -1 || ne == -1 then NoMarkers
    else if os + 8 > oe || ns + 8 > ne then Inverted
    else Extracted(Edit(TrimSpace(content[os + 8..oe]), TrimSpace(content[ns + 8..ne])))
  }

  /** The update block as an agent writes it. */
  function Block(o: string, n: string): string
  {
    OldStart + o + OldEnd + NewStart + n + NewEnd
  }

  /** Where each part of a block lies. */
  lemma BlockParts(o: string, n: string)
    ensures var s := Block(o, n); var L := |o|;
      && |s| == 32 + L + |n|
      && s[..8] == OldStart && s[8..8 + L] == o && s[8 + L..16 + L] == OldEnd
      && s[16 + L..24 + L] == NewStart && s[24 + L..24 + L + |n|] == n && s[24 + L + |n|..] == NewEnd
  {
    var s := Block(o, n);
    var L := |o|;
    assert s[..8] == OldStart;
    assert s[8..8 + L] == o;
    assert s[8 + L..16 + L] == OldEnd;
    assert s[16 + L..24 + L] == NewStart;
    assert s[24 + L..24 + L + |n|] == n;
    assert s[24 + L + |n|..] == NewEnd;
  }

  /** In a block whose texts hold no angle brackets, `>>>> OLD` first occurs right after
      the old text: no `>` comes before it. */
  lemma BlockOldEnd(o: string, n: string)
    requires '<' !in o && '>' !in o && '<' !in n && '>' !in n
    ensures IndexOf(Block(o, n), OldEnd) == 8 + |o|
  {
    var s := Block(o, n);
    var L := |o|;
    BlockParts(o, n);
    assert OccursAt(s, OldEnd, 8 + L);
    NoOccurrenceIn(s, OldEnd, 0, 8 + L, 0);
    IndexOfIs(s, OldEnd, 8 + L);
  }

  /** ... and `NEW <<<<` first occurs right after `>>>> OLD`. */
  lemma BlockNewStart(o: string, n: string)
    requires '<' !in o && '>' !in o && '<' !in n && '>' !in n
    ensures IndexOf(Block(o, n), NewStart) == 16 + |o|
  {
    var s := Block(o, n);
    var L := |o|;
    BlockParts(o, n);
    assert OccursAt(s, NewStart, 16 + L);
    NoOccurrenceIn(s, NewStart, 0, 1, 0);
    NoOccurrenceIn(s, NewStart, 1, 4, 7);
    NoOccurrenceIn(s, NewStart, 4, 16 + L, 4);
    IndexOfIs(s, NewStart, 16 + L);
  }

  /** ... and `>>>> NEW` first occurs right after the new text. */
  lemma BlockNewEnd(o: string, n: string)
    requires '<' !in o && '>' !in o && '<' !in n && '>' !in n
    ensures IndexOf(Block(o, n), NewEnd) == 24 + |o| + |n|
  {
    var s := Block(o, n);
    var L := |o|;
    var E := 24 + L + |n|;
    BlockParts(o, n);
    assert OccursAt(s, NewEnd, E);
    NoOccurrenceIn(s, NewEnd, 0, 8 + L, 0);
    NoOccurrenceIn(s, NewEnd, 8 + L, 9 + L, 5);
    NoOccurrenceIn(s, NewEnd, 9 + L, 12 + L, 3);
    NoOccurrenceIn(s, NewEnd, 12 + L, E, 0);
    IndexOfIs(s, NewEnd, E);
  }

  /** Markers found in order, with the texts `o` and `n` between them, give those texts
      trimmed. */
  lemma ExtractAt(content: string, os: nat, oe: nat, ns: nat, ne: nat, o: string, n: string)
    requires IndexOf(content, OldStart) == os && IndexOf(content, OldEnd) == oe
    requires IndexOf(content, NewStart) == ns && IndexOf(content, NewEnd) == ne
    requires os + 8 <= oe && ns + 8 <= ne
    requires content[os + 8..oe] == o && content[ns + 8..ne] == n
    ensures ExtractEdit(content) == Extracted(Edit(TrimSpace(o), TrimSpace(n)))
  {
    assert !(os + 8 > oe || ns + 8 > ne);
    assert ExtractEdit(content).Extracted?;
    assert ExtractEdit(content).edit.target == TrimSpace(content[os + 8..oe]);
    assert ExtractEdit(content).edit.repl == TrimSpace(content[ns + 8..ne]);
  }

  /** A block whose texts hold no angle brackets yields exactly those texts, trimmed. */
  lemma ExtractBlock(o: string, n: string)
    requires '<' !in o && '>' !in o && '<' !in n && '>' !in n
    ensures ExtractEdit(Block(o, n)) == Extracted(Edit(TrimSpace(o), TrimSpace(n)))
  {
    var s := Block(o, n);
    var L := |o|;
    BlockParts(o, n);
    assert OccursAt(s, OldStart, 0);
    IndexOfIs(s, OldStart, 0);
    BlockOldEnd(o, n);
    BlockNewStart(o, n);
    BlockNewEnd(o, n);
    assert s[8..8 + L] == o;
    assert s[0 + 8..8 + L] == o;
    assert s[24 + L..24 + L + |n|] == n;
    assert s[16 + L + 8..24 + L + |n|] == n;
    ExtractAt(s, 0, 8 + L, 16 + L, 24 + L + |n|, o, n);
  }

  /** The reply when a marker is missing. */
  const InvalidFormat: string :=
    "Invalid update format: missing OLD <<<< ... >>>> OLD or NEW <<<< ... >>>> NEW markers"

  /** The reply when the replacement changes nothing. */
  const NotUpdated: string :=
    "File content was not updated because old content was not found. It may be helpful to use the read_file action to get the current file contents."

  /** `UpdateFile`: the first line is the path, the rest holds the update block; the file is
      read, every occurrence of the old text replaced, and the result written back unless
      nothing changed. Reading never fails in Go (its errors come back as text), so the
      replacement runs on whatever `ReadFile` returned. */
  function UpdateFile(b: Branches, query: string, remote: Remote): (r: Step)
    ensures !r.out.Failed?
    ensures Protected(b) ==> r == Step(Done(ProtectedReply(b.base)), [])
    ensures r.sent != [] ==> (!Protected(b) && |r.sent| == 1 && r.sent[0].FileUpdate?
      && r.sent[0].path == Split(query, '\n')[0] && r.sent[0].message == "Update " + r.sent[0].path
      && r.sent[0].branch == b.active)
    ensures r.sent != [] ==>
      var path := Split(query, '\n')[0];
      var x := ExtractEdit(Join(Split(query, '\n')[1..], "\n"));
      && x.Extracted? && ReadFile(b, path, remote).Done?
      && r.sent[0].content == ReplaceAll(ReadFile(b, path, remote).text, x.edit.target, x.edit.repl)
      && r.sent[0].content != ReadFile(b, path, remote).text
  {
    if b.active == b.base then Step(Done(ProtectedReply(b.base)), [])
    else
      var lines := Split(query, '\n');
      UpdateAt(b, lines[0], Join(lines[1..], "\n"), remote)
  }

  /** `UpdateFile` once the query is split into the path and the update block. */
  function UpdateAt(b: Branches, path: string, content: string, remote: Remote): (r: Step)
    ensures !r.out.Failed?
    ensures r.sent != [] ==> (|r.sent| == 1 && r.sent[0].FileUpdate? && r.sent[0].path == path
      && r.sent[0].message == "Update " + path && r.sent[0].branch == b.active)
    ensures ExtractEdit(content).NoMarkers? ==> r == Step(Done(InvalidFormat), [])
    ensures ExtractEdit(content).Inverted? ==> r.out.Panic? && r.sent == []
    ensures ExtractEdit(content).Extracted? && ReadFile(b, path, remote).Panic? ==> r.out.Panic? && r.sent == []
    ensures ExtractEdit(content).Extracted? && ReadFile(b, path, remote).Done? ==>
      r == WriteBack(b, path, ReadFile(b, path, remote).text, ExtractEdit(content).edit, remote)
    ensures r.sent != [] ==>
      && ExtractEdit(content).Extracted? && ReadFile(b, path, remote).Done?
      && r.sent[0].content == ReplaceAll(ReadFile(b, path, remote).text, ExtractEdit(content).edit.target, ExtractEdit(content).edit.repl)
      && r.sent[0].content != ReadFile(b, path, remote).text
  {
    match ExtractEdit(content)
    case NoMarkers =>
      Step(Done(InvalidFormat), [])
    case Inverted => Step(Panic("slice bounds out of range"), [])
    case Extracted(edit) =>
      match ReadFile(b, path, remote)
      case Done(current) => WriteBack(b, path, current, edit, remote)
      case Failed(e) => Step(Done("Failed to read current file: " + e), [])
      case Panic(why) => Step(Panic(why), [])
  }

  /** The second half of `UpdateFile`: replace, and write back only what changed. */
  function WriteBack(b: Branches, path: string, current: string, edit: Edit, remote: Remote): (r: Step)
    ensures !r.out.Failed?
    ensures var updated := ReplaceAll(current, edit.target, edit.repl);
      && (updated == current ==> r == Step(Done(NotUpdated), []))
      && (r.sent != [] ==> r.sent == [FileUpdate(path, "Update " + path, updated, b.active)])
      && (updated != current && remote.fetch(path, b.active).FileAt? ==>
            r.sent == [FileUpdate(path, "Update " + path, updated, b.active)])
  {
    var updated := ReplaceAll(current, edit.target, edit.repl);
    if current == updated then Step(Done(NotUpdated), [])
    else
      match remote.fetch(path, b.active)
      case Missing(e) => Step(Done("Failed to get file SHA: " + e), [])
      case DirectoryAt => Step(Panic("nil file content"), [])
      case FileAt(_) =>
        var req := FileUpdate(path, "Update " + path, updated, b.active);
        match remote.send(req)
        case Err(e) => Step(Done("Unable to update file due to error:\n" + e), [req])
        case Ok(_) => Step(Done("Updated file " + path), [req])
  }

  /** A well-formed update of an existing file writes back the file with every occurrence of
      the trimmed old text replaced by the trimmed new text, when that changes anything, and
      otherwise writes nothing and says so. */
  lemma UpdateFileBlock(b: Branches, path: string, rest: string, current: string, remote: Remote)
    requires !Protected(b) && '\n' !in path
    requires ExtractEdit(rest).Extracted?
    requires remote.fetch(path, b.active) == FileAt(Ok(current))
    ensures var r := UpdateFile(b, path + "\n" + rest, remote);
      var e := ExtractEdit(rest).edit;
      var updated := ReplaceAll(current, e.target, e.repl);
      && (updated == current ==> r == Step(Done(NotUpdated), []))
      && (updated != current ==> r.sent == [FileUpdate(path, "Update " + path, updated, b.active)])
  {
    var q := path + "\n" + rest;
    assert q == path + ['\n'] + rest;
    SplitCons(path, '\n', rest);
    JoinSplit(rest, '\n');
    assert Split(q, '\n')[1..] == Split(rest, '\n');
    assert ReadFile(b, path, remote) == Done(current);
  }

  /** The update is a no-op exactly when old and new coincide or a non-empty old text does
      not occur in the file. */
  lemma UpdateFileNoOp(b: Branches, path: string, rest: string, current: string, remote: Remote)
    requires !Protected(b) && '\n' !in path
    requires ExtractEdit(rest).Extracted?
    requires remote.fetch(path, b.active) == FileAt(Ok(current))
    ensures var e := ExtractEdit(rest).edit;
      (UpdateFile(b, path + "\n" + rest, remote) == Step(Done(NotUpdated), []))
      <==> (e.target == e.repl || (e.target != [] && !Contains(current, e.target)))
  {
    var e := ExtractEdit(rest).edit;
    UpdateFileBlock(b, path, rest, current, remote);
    ReplaceAllUnchanged(current, e.target, e.repl);
  }

  /** For instance, a block written as `OLD <<<<` old `>>>> OLD` `NEW <<<<` new `>>>> NEW`
      whose texts hold no angle brackets is a well-formed update of those texts, trimmed. */
  lemma UpdateFileExample(b: Branches, path: string, o: string, n: string, current: string, remote: Remote)
    requires !Protected(b) && '\n' !in path
    requires '<' !in o && '>' !in o && '<' !in n && '>' !in n
    requires remote.fetch(path, b.active) == FileAt(Ok(current))
    ensures var updated := ReplaceAll(current, TrimSpace(o), TrimSpace(n));
      updated != current ==>
        UpdateFile(b, path + "\n" + Block(o, n), remote).sent == [FileUpdate(path, "Update " + path, updated, b.active)]
  {
    ExtractBlock(o, n);
    UpdateFileBlock(b, path, Block(o, n), current, remote);
  }

  /** An end marker ahead of its start marker crashes the Go code. */
  lemma UpdateFileInverted(b: Branches, path: string, rest: string, remote: Remote)
    requires !Protected(b) && '\n' !in path
    requires ExtractEdit(rest).Inverted?
    ensures UpdateFile(b, path + "\n" + rest, remote).out.Panic?
  {
    var q := path + "\n" + rest;
    assert q == path + ['\n'] + rest;
    SplitCons(path, '\n', rest);
    JoinSplit(rest, '\n');
    assert Split(q, '\n')[1..] == Split(rest, '\n');
  }

  /** For instance, `>>>> OLD` first and `OLD <<<<` after it. */
  lemma InvertedExample()
    ensures ExtractEdit(">>>> OLD" + OldStart + NewStart + NewEnd).Inverted?
  {
    var s := ">>>> OLD" + OldStart + NewStart + NewEnd;
    assert OccursAt(s, OldEnd, 0);
    IndexOfIs(s, OldEnd, 0);
    assert OccursAt(s, OldStart, 8);
    assert OccursAt(s, NewStart, 16);
    assert OccursAt(s, NewEnd, 24);
  }

  // ================================================================== dispatch

  /** The modes `Run` recognises, in the order of its switch. */
  const Modes: seq<string> := [
    "get_issue", "get_pull_request", "get_issues", "comment_on_issue", "create_file",
    "create_pull_request", "read_file", "update_file", "delete_file", "list_open_pull_requests",
    "list_files_in_main_branch", "list_files_in_bot_branch", "list_branches_in_repo",
    "set_active_branch", "create_branch", "get_files_from_directory", "search_issues_and_prs",
    "search_code", "get_latest_release", "get_releases", "get_release"]

  /** The two modes that move the active branch. */
  const InvalidMode: string := "invalid mode: "

  const BranchModes: set<string> := {"set_active_branch", "create_branch"}

  /** The modes that change the repository, all refused on the base branch. */
  const WriteModes: set<string> := {"create_file", "update_file", "delete_file", "create_pull_request"}

  /** The modes that send a request: the writes and commenting. */
  const SendModes: set<string> := WriteModes + {"comment_on_issue"}

  /** The modes that only read. */
  const ReadModes: set<string> := {
    "get_issue", "get_pull_request", "get_issues", "read_file", "list_open_pull_requests",
    "list_files_in_main_branch", "list_files_in_bot_branch", "list_branches_in_repo",
    "get_files_from_directory", "search_issues_and_prs", "search_code", "get_latest_release",
    "get_releases", "get_release"}

  /** Every listed mode reads, sends or moves the branch. */
  lemma ModesPartition(mode: string)
    ensures mode in Modes <==> mode in ReadModes || mode in SendModes || mode in BranchModes
  {
  }

  function GetIssue(n: int, remote: Remote): (r: Outcome)
    ensures r.Failed? ==> HasPrefix(r.error, "failed to ")
    ensures r.Done? <==> remote.issueJson(n).IssueJson?
    ensures !r.Panic?
  {
    match remote.issueJson(n)
    case IssueJson(text) => Done(text)
    case IssueFailed(e) => Failed("failed to get issue: " + e)
    case CommentsFailed(e) => Failed("failed to get comments: " + e)
  }

  function GetPullRequest(n: int, remote: Remote): (r: Outcome)
    ensures r.Failed? ==> HasPrefix(r.error, "failed to ")
    ensures r.Done? <==> remote.pullJson(n).Ok?
    ensures !r.Panic?
  {
    match remote.pullJson(n)
    case Ok(text) => Done(text)
    case Err(e) => Failed("failed to get pull request: " + e)
  }

  /** How the read-only modes fail: a wrapped `failed to ...` error, or an issue or pull
      request number that does not parse. */
  predicate Reported(o: Outcome)
  {
    o.Failed? ==>
      || HasPrefix(o.error, "failed to ")
      || HasPrefix(o.error, "invalid issue number: ")
      || HasPrefix(o.error, "invalid PR number: ")
  }

  /** `Run` for the read-only modes. */
  function Query(b: Branches, mode: string, query: string, remote: Remote): (r: Outcome)
    requires mode in ReadModes
    ensures mode == "get_issue" && Atoi(query).None? ==> r == Failed("invalid issue number: " + query)
    ensures mode == "get_pull_request" && Atoi(query).None? ==> r == Failed("invalid PR number: " + query)
    ensures Reported(r)
  {
    if mode == "get_issue" then
      match Atoi(query)
      case None => Failed("invalid issue number: " + query)
      case Some(n) => GetIssue(n, remote)
    else if mode == "get_pull_request" then
      match Atoi(query)
      case None => Failed("invalid PR number: " + query)
      case Some(n) => GetPullRequest(n, remote)
    else if mode == "get_issues" then GetIssues(remote)
    else if mode == "read_file" then ReadFile(b, query, remote)
    else if mode == "list_open_pull_requests" then ListOpenPullRequests(remote)
    else if mode == "list_files_in_main_branch" then ListFilesInMainBranch(b, remote)
    else if mode == "list_files_in_bot_branch" then ListFilesInBotBranch(b, remote)
    else if mode == "list_branches_in_repo" then ListBranchesInRepo(remote)
    else if mode == "get_files_from_directory" then GetFilesFromDirectory(b, query, remote)
    else if mode == "search_issues_and_prs" then SearchIssuesAndPRs(b, query, remote)
    else if mode == "search_code" then SearchCode(b, query, remote)
    else if mode == "get_latest_release" then GetLatestRelease(remote)
    else if mode == "get_releases" then GetReleases(remote)
    else GetRelease(query, remote)
  }

  /** `Run` for the modes that send a request. None of them fails: refusals come back as
      text, and the writes are refused on the base branch without sending anything. */
  function Change(b: Branches, mode: string, query: string, remote: Remote): (r: Step)
    requires mode in SendModes
    ensures !r.out.Failed?
    ensures Protected(b) && mode in WriteModes ==> r.sent == [] && r.out.Done?
  {
    if mode == "comment_on_issue" then CommentOnIssue(query, remote)
    else if mode == "create_file" then CreateFile(b, query, remote)
    else if mode == "create_pull_request" then CreatePullRequest(b, query, remote)
    else if mode == "update_file" then UpdateFile(b, query, remote)
    else DeleteFile(b, query, remote)
  }

  /** `Run` for every mode that leaves the active branch alone. */
  function Perform(b: Branches, mode: string, query: string, remote: Remote): (r: Step)
    requires mode !in BranchModes
    ensures mode !in Modes ==> r == Step(Failed(InvalidMode + mode), [])
    ensures mode in Modes ==> Reported(r.out)
    ensures r.sent != [] ==> mode in SendModes
    ensures Protected(b) && mode in WriteModes ==> r.sent == [] && r.out.Done?
  {
    ModesPartition(mode);
    if mode in SendModes then Change(b, mode, query, remote)
    else if mode in ReadModes then Step(Query(b, mode, query, remote), [])
    else Step(Failed(InvalidMode + mode), [])
  }

  /** A listed mode never fails with the unknown-mode error, so `Run` recognises exactly the
      listed modes. */
  lemma ModesExact(b: Branches, mode: string, query: string, remote: Remote)
    requires mode !in BranchModes
    ensures Perform(b, mode, query, remote).out == Failed(InvalidMode + mode) <==> mode !in Modes
  {
    if mode in Modes {
      ReportedNotMode(Perform(b, mode, query, remote).out, mode);
    }
  }

  /** No failure a read-only mode reports reads as the unknown-mode error. */
  lemma ReportedNotMode(o: Outcome, mode: string)
    requires Reported(o)
    ensures o != Failed(InvalidMode + mode)
  {
    var m := InvalidMode + mode;
    assert HasPrefix(m, InvalidMode);
    if o.Failed? {
      var e := o.error;
      if HasPrefix(e, "failed to ") {
        PrefixesDiffer(e, m, "failed to ", InvalidMode, 0);
      } else if HasPrefix(e, "invalid issue number: ") {
        PrefixesDiffer(e, m, "invalid issue number: ", InvalidMode, 8);
      } else {
        PrefixesDiffer(e, m, "invalid PR number: ", InvalidMode, 8);
      }
    }
  }

  /** Texts whose prefixes differ somewhere differ. */
  lemma PrefixesDiffer(s: string, t: string, p: string, q: string, k: nat)
    requires HasPrefix(s, p) && HasPrefix(t, q)
    requires k < |p| && k < |q| && p[k] != q[k]
    ensures s != t
  {
    assert s[k] == p[k];
    assert t[k] == q[k];
  }

  // ================================================================== the wrapper object

  /** The two names `CreateBranch` tries: the proposal itself, then `<proposal>_v<k>`. */
  function Candidate(proposed: string, k: nat): string
  {
    if k == 0 then proposed else proposed + "_v" + Itoa(k)
  }

  /** Distinct attempts try distinct names. */
  lemma CandidatesDistinct(proposed: string, i: nat, j: nat)
    requires i != j
    ensures Candidate(proposed, i) != Candidate(proposed, j)
  {
    if i != 0 && j != 0 {
      var n := |proposed| + 2;
      DigitsSpelling(i);
      DigitsSpelling(j);
      assert Candidate(proposed, i)[n..] == Digits(i);
      assert Candidate(proposed, j)[n..] == Digits(j);
      assert Value(Digits(i)) != Value(Digits(j));
    }
  }

  const Exists: string := "Reference already exists"

  function CreatedReply(name: string): string
  {
    "Branch '" + name + "' created successfully, and set as current active branch."
  }

  function ExhaustedReply(proposed: string): string
  {
    "Unable to create branch. At least 1000 branches exist with named derived from proposed_branch_name: `"
      + proposed + "`"
  }

  /** A create-ref error that means the name is taken. */
  predicate Taken(error: string)
  {
    Contains(error, Exists)
  }

  /** How a run of attempts ends: a branch created, every name taken, or a request refused
      for another reason. */
  datatype End = Created(name: string) | Exhausted | Refused(error: string)

  /** What a run of attempts produces: how it ends and the create-ref requests sent, in order. */
  datatype Tries = Tries(end: End, sent: seq<Request>)

  /** The text `CreateBranch` answers with for each way a run ends. */
  function EndOutcome(proposed: string, end: End): (r: Outcome)
    ensures r.Failed? <==> end.Refused?
  {
    match end
    case Created(name) => Done(CreatedReply(name))
    case Exhausted => Done(ExhaustedReply(proposed))
    case Refused(e) => Failed("failed to create branch: " + e)
  }

  /** The create-ref request for branch `name` at commit `sha`. */
  function NewBranch(name: string, sha: string): Request
  {
    NewRef("refs/heads/" + name, sha)
  }

  /** The names `CreateBranch` tries, in order: `Candidate(proposed, 0)` ... `Candidate(proposed, 999)`. */
  function Candidates(proposed: string): (r: seq<string>)
    ensures |r| == 1000
  {
    seq(1000, k requires 0 <= k => Candidate(proposed, k))
  }

  /** Trying the names `names` in turn: the first name whose request succeeds is created;
      a refusal whose error `taken` recognises as a name already in use moves on to the
      next name, any other refusal ends the run; when the names run out, the run is
      exhausted. `CreateBranch` recognises a taken name with `Taken`. */
  function Attempts(names: seq<string>, sha: string, send: Request -> Result<int>, taken: string -> bool): (r: Tries)
    ensures |r.sent| <= |names|
    ensures r.end.Exhausted? ==> |r.sent| == |names|
  {
    if names == [] then Tries(Exhausted, [])
    else
      var req := NewBranch(names[0], sha);
      match send(req)
      case Ok(_) => Tries(Created(names[0]), [req])
      case Err(e) =>
        if taken(e) then
          var rest := Attempts(names[1..], sha, send, taken);
          rest.(sent := [req] + rest.sent)
        else Tries(Refused(e), [req])
  }

  /** The `i`-th request sent is for the `i`-th name. */
  lemma {:induction false} AttemptsSent(names: seq<string>, sha: string, send: Request -> Result<int>, taken: string -> bool)
    ensures var t := Attempts(names, sha, send, taken);
      forall i :: 0 <= i < |t.sent| ==> t.sent[i] == NewBranch(names[i], sha)
    decreases |names|
  {
    var t := Attempts(names, sha, send, taken);
    if names != [] {
      var req := NewBranch(names[0], sha);
      var answer := send(req);
      if answer.Err? && taken(answer.error) {
        var rest := Attempts(names[1..], sha, send, taken);
        AttemptsSent(names[1..], sha, send, taken);
        assert t.sent == [req] + rest.sent;
        forall i | 1 <= i < |t.sent|
          ensures t.sent[i] == NewBranch(names[i], sha)
        {
          assert t.sent[i] == rest.sent[i - 1];
        }
      }
    }
  }

  /** Every request but the last was refused because its name was taken. */
  lemma {:induction false} AttemptsRefused(names: seq<string>, sha: string, send: Request -> Result<int>, taken: string -> bool)
    ensures Refusals(Attempts(names, sha, send, taken).sent, send, taken)
    decreases |names|
  {
    var t := Attempts(names, sha, send, taken);
    if names != [] {
      var req := NewBranch(names[0], sha);
      var answer := send(req);
      if answer.Err? && taken(answer.error) {
        var rest := Attempts(names[1..], sha, send, taken);
        AttemptsRefused(names[1..], sha, send, taken);
        RefusedPrefix(req, rest.sent, send, taken);
        assert t.sent == [req] + rest.sent;
      } else {
        assert |t.sent| == 1;
      }
    }
  }

  /** Every request of `sent` but the last was refused with an error `taken` recognises. */
  predicate Refusals(sent: seq<Request>, send: Request -> Result<int>, taken: string -> bool)
  {
    forall i :: 0 <= i < |sent| - 1 ==> send(sent[i]).Err? && taken(send(sent[i]).error)
  }

  /** Prepending a request refused as taken keeps every request but the last refused. */
  lemma RefusedPrefix(req: Request, sent: seq<Request>, send: Request -> Result<int>, taken: string -> bool)
    requires send(req).Err? && taken(send(req).error)
    requires Refusals(sent, send, taken)
    ensures Refusals([req] + sent, send, taken)
  {
    var all := [req] + sent;
    forall i | 0 <= i < |all| - 1
      ensures send(all[i]).Err? && taken(send(all[i]).error)
    {
      if i > 0 {
        assert all[i] == sent[i - 1];
      }
    }
  }

  /** A branch is created only by the last request, which succeeded: the name created is
      the name that request was for. */
  lemma {:induction false} AttemptsCreated(names: seq<string>, sha: string, send: Request -> Result<int>, taken: string -> bool)
    requires Attempts(names, sha, send, taken).end.Created?
    ensures var t := Attempts(names, sha, send, taken);
      && 1 <= |t.sent| <= |names|
      && t.end.name == names[|t.sent| - 1]
      && send(NewBranch(names[|t.sent| - 1], sha)).Ok?
    decreases |names|
  {
    var t := Attempts(names, sha, send, taken);
    var req := NewBranch(names[0], sha);
    if send(req).Err? {
      var rest := Attempts(names[1..], sha, send, taken);
      AttemptsCreated(names[1..], sha, send, taken);
      assert |t.sent| == 1 + |rest.sent| && t.end == rest.end;
      assert names[|t.sent| - 1] == names[1..][|rest.sent| - 1];
    }
  }

  /** When every name is taken, every name is tried and the run reports exhaustion. */
  lemma {:induction false} AttemptsExhausted(names: seq<string>, sha: string, send: Request -> Result<int>, taken: string -> bool)
    requires forall i :: 0 <= i < |names| ==> send(NewBranch(names[i], sha)).Err? && taken(send(NewBranch(names[i], sha)).error)
    ensures Attempts(names, sha, send, taken).end.Exhausted?
    decreases |names|
  {
    if names != [] {
      assert send(NewBranch(names[0], sha)).Err?;
      AttemptsExhausted(names[1..], sha, send, taken);
    }
  }

  /** One turn of `CreateFrom`'s loop: after the requests `sent` for the names before `i`,
      the answer to the request for name `i` decides how the run goes on. */
  lemma AttemptsTurn(names: seq<string>, sha: string, send: Request -> Result<int>, i: nat, sent: seq<Request>)
    requires i < |names|
    requires Attempts(names, sha, send, Taken)
      == Attempts(names[i..], sha, send, Taken).(sent := sent + Attempts(names[i..], sha, send, Taken).sent)
    ensures var req := NewBranch(names[i], sha);
      var t := Attempts(names, sha, send, Taken);
      && (send(req).Ok? ==> t == Tries(Created(names[i]), sent + [req]))
      && (send(req).Err? && !Taken(send(req).error) ==> t == Tries(Refused(send(req).error), sent + [req]))
      && (send(req).Err? && Taken(send(req).error) ==>
            t == Attempts(names[i + 1..], sha, send, Taken).(sent := (sent + [req]) + Attempts(names[i + 1..], sha, send, Taken).sent))
  {
    var req := NewBranch(names[i], sha);
    assert names[i..][0] == names[i];
    assert names[i..][1..] == names[i + 1..];
    if send(req).Err? && Taken(send(req).error) {
      var rest := Attempts(names[i + 1..], sha, send, Taken);
      assert sent + ([req] + rest.sent) == (sent + [req]) + rest.sent;
    }
  }

  /** The loop of `CreateBranch`: create-ref requests for the candidate names in turn. */
  method CreateFrom(proposed: string, sha: string, send: Request -> Result<int>) returns (t: Tries)
    ensures t == Attempts(Candidates(proposed), sha, send, Taken)
  {
    ghost var names := Candidates(proposed);
    var name := proposed;
    var sent: seq<Request> := [];
    var i := 0;
    assert names[0..] == names;
    while i < 1000
      invariant 0 <= i <= 1000 && |sent| == i
      invariant i < 1000 ==> name == names[i]
      invariant Attempts(names, sha, send, Taken)
        == Attempts(names[i..], sha, send, Taken).(sent := sent + Attempts(names[i..], sha, send, Taken).sent)
    {
      var req := NewRef("refs/heads/" + name, sha);
      var answer := send(req);
      AttemptsTurn(names, sha, send, i, sent);
      assert req == NewBranch(names[i], sha);
      if answer.Ok? {
        return Tries(Created(name), sent + [req]);
      }
      if Contains(answer.error, Exists) {
        name := proposed + "_v" + Itoa(i + 1);
        sent := sent + [req];
        i := i + 1;
        continue;
      }
      return Tries(Refused(answer.error), sent + [req]);
    }
    assert names[i..] == [];
    return Tries(Exhausted, sent);
  }

  const SwitchedTo: string := "Switched to branch `"
  const NotListed: string := " does not exist, in repo with current branches: "

  /** What `SetActiveBranch` answers: a failed branch list is an error; a listed name is
      switched to, any other is refused with the list of branches. */
  function SwitchOutcome(name: string, branches: Result<seq<string>>): (r: Outcome)
    ensures r.Failed? <==> branches.Err?
    ensures branches.Err? ==> r.error == "failed to list branches: " + branches.error
    ensures branches.Ok? && name in branches.value ==> r == Done(SwitchedTo + name + "`")
    ensures branches.Ok? && name !in branches.value ==>
      r == Done("Error " + name + NotListed + ShowList(branches.value))
  {
    match branches
    case Err(e) => Failed("failed to list branches: " + e)
    case Ok(names) =>
      if name in names then Done(SwitchedTo + name + "`")
      else Done("Error " + name + NotListed + ShowList(names))
  }

  class GitHubAPIWrapper {
    const owner: string
    const repoName: string
    const appID: string
    const privateKey: string
    const githubBaseBranch: string
    var activeBranch: string

    constructor (s: Setup)
      ensures owner == s.owner && repoName == s.repoName && appID == s.appID && privateKey == s.privateKey
      ensures githubBaseBranch == s.baseBranch && activeBranch == s.activeBranch
    {
      owner := s.owner;
      repoName := s.repoName;
      appID := s.appID;
      privateKey := s.privateKey;
      githubBaseBranch := s.baseBranch;
      activeBranch := s.activeBranch;
    }

    function View(): Branches
      reads this
    {
      Branches(owner, repoName, activeBranch, githubBaseBranch)
    }

    /** `SetActiveBranch`: switch only to a listed branch; otherwise say so and stay. */
    method SetActiveBranch(name: string, branches: Result<seq<string>>) returns (out: Outcome)
      modifies this
      ensures out == SwitchOutcome(name, branches)
      ensures activeBranch == (if branches.Ok? && name in branches.value then name else old(activeBranch))
    {
      if branches.Err? {
        return Failed("failed to list branches: " + branches.error);
      }
      var all := branches.value;
      var names: seq<string> := [];
      var exists_ := false;
      for i := 0 to |all|
        invariant names == all[..i]
        invariant exists_ <==> name in all[..i]
      {
        assert all[..i + 1] == all[..i] + [all[i]];
        names := names + [all[i]];
        if all[i] == name {
          exists_ := true;
        }
      }
      assert all[..|all|] == all;
      if !exists_ {
        return Done("Error " + name + NotListed + ShowList(names));
      }
      activeBranch := name;
      return Done(SwitchedTo + name + "`");
    }

    /** `CreateBranch`: try the proposed name, then `_v1` ... `_v999`, retrying only when
      the name is taken; the name that succeeds becomes the active branch. */
    method CreateBranch(proposed: string, remote: Remote) returns (step: Step)
      modifies this
      ensures remote.getRef("refs/heads/" + githubBaseBranch).Err? ==>
        (step == Step(Failed("failed to get base branch: " + remote.getRef("refs/heads/" + githubBaseBranch).error), [])
         && activeBranch == old(activeBranch))
      ensures remote.getRef("refs/heads/" + githubBaseBranch).Ok? ==>
        var t := Attempts(Candidates(proposed), remote.getRef("refs/heads/" + githubBaseBranch).value, remote.send, Taken);
        step == Step(EndOutcome(proposed, t.end), t.sent)
        && activeBranch == (if t.end.Created? then t.end.name else old(activeBranch))
    {
      var base := remote.getRef("refs/heads/" + githubBaseBranch);
      if base.Err? {
        return Step(Failed("failed to get base branch: " + base.error), []);
      }
      var t := CreateFrom(proposed, base.value, remote.send);
      if t.end.Created? {
        activeBranch := t.end.name;
      }
      return Step(EndOutcome(proposed, t.end), t.sent);
    }

    /** `Run`: dispatch on the mode name. */
    method Run(mode: string, query: string, remote: Remote) returns (step: Step)
      modifies this
      ensures mode !in BranchModes ==> step == Perform(old(View()), mode, query, remote)
      ensures mode !in BranchModes ==> activeBranch == old(activeBranch)
      ensures mode == "set_active_branch" ==> (step == Step(SwitchOutcome(query, remote.branches), [])
        && activeBranch == (if remote.branches.Ok? && query in remote.branches.value then query else old(activeBranch)))
      ensures mode == "create_branch" && remote.getRef("refs/heads/" + githubBaseBranch).Err? ==>
        (step == Step(Failed("failed to get base branch: " + remote.getRef("refs/heads/" + githubBaseBranch).error), [])
         && activeBranch == old(activeBranch))
      ensures mode == "create_branch" && remote.getRef("refs/heads/" + githubBaseBranch).Ok? ==>
        var t := Attempts(Candidates(query), remote.getRef("refs/heads/" + githubBaseBranch).value, remote.send, Taken);
        step == Step(EndOutcome(query, t.end), t.sent)
        && activeBranch == (if t.end.Created? then t.end.name else old(activeBranch))
    {
      if mode == "set_active_branch" {
        var out := SetActiveBranch(query, remote.branches);
        return Step(out, []);
      } else if mode == "create_branch" {
        step := CreateBranch(query, remote);
      } else {
        step := Perform(View(), mode, query, remote);
      }
    }
  }
}
