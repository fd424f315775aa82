/** The repository tools of tools/github/repository.go: list the branches, list a directory,
    and search the repository's code or its issues and pull requests. */
module RepositoryTools {
  import opened Results
  import opened Text
  import opened Decimal
  import opened Environment
  import opened Listing
  import opened ToolClient
  import opened IssueTools

  // ================================================================== branches

  const BranchesHeader: string := "Repository Branches:\n"

  /** One branch of the listing, without its line break. */
  function BranchEntry(k: nat, name: string): string
  {
    "- " + name
  }

  function BranchLine(k: nat, name: string): string
  {
    BranchEntry(k, name) + "\n"
  }

  /** `ListBranchesTool.Call`: the header, then one line per branch. */
  method ListBranches(gh: Service) returns (r: Answer)
    ensures gh.branches.Err? ==>
      r == Refused(Says(gh.branches.error), "failed to fetch branches: " + gh.branches.error)
    ensures gh.branches.Ok? ==> r == Answered(BranchesHeader + Render(gh.branches.value, BranchLine))
  {
    if gh.branches.Err? {
      var e := gh.branches.error;
      return Refused(Says(e), "failed to fetch branches: " + e);
    }
    var out := WriteAll(BranchesHeader, gh.branches.value, BranchLine);
    r := Answered(out);
  }

  /** When no branch name holds a line break, the listing reads back as its header and one
      "- name" line per branch, in order. */
  lemma BranchesListed(names: seq<string>)
    requires forall k :: 0 <= k < |names| ==> '\n' !in names[k]
    ensures Split(BranchesHeader + Render(names, BranchLine), '\n') ==
      ["Repository Branches:"] + Entries(names, BranchEntry) + [""]
  {
    BranchesHeaderLine();
    forall k | 0 <= k < |names|
      ensures BranchLine(k, names[k]) == BranchEntry(k, names[k]) + "\n" && '\n' !in BranchEntry(k, names[k])
    {
      assert BranchEntry(k, names[k]) == "- " + names[k];
    }
    HeadedLines("Repository Branches:", names, BranchLine, BranchEntry);
  }

  lemma BranchesHeaderLine()
    ensures BranchesHeader == "Repository Branches:" + "\n" && '\n' !in "Repository Branches:"
  {
  }

  // ================================================================== a directory

  const FileIcon: string := "\U{1F4C4} "
  const DirIcon: string := "\U{1F4C1} "

  /** Entries of these two types are listed; symlinks and submodules are not. */
  predicate Shown(item: Item)
  {
    item.kind == "file" || item.kind == "dir"
  }

  /** A listed entry, without its line break: an icon and the name, with a trailing "/" on a
      directory. */
  function ItemEntry(k: nat, item: Item): string
  {
    if item.kind == "file" then FileIcon + item.name else DirIcon + item.name + "/"
  }

  /** What the loop writes for one entry: its line, or nothing for a type it skips. */
  function ItemLine(k: nat, item: Item): (r: string)
    ensures r == [] <==> !Shown(item)
  {
    if Shown(item) then ItemEntry(k, item) + "\n" else ""
  }

  /** Rendering skips exactly the entries of other types. */
  lemma SkipsHidden(items: seq<Item>)
    ensures Render(items, ItemLine) == Render(Kept(items, Shown), ItemLine)
  {
    forall j: nat, k: nat, x: Item ensures ItemLine(j, x) == ItemLine(k, x) {
    }
    RenderKept(items, ItemLine, Shown);
  }

  /** The heading of the listing: the root has its own. */
  function DirectoryHeader(path: string): (r: string)
    ensures path == [] ==> r == "Files in root directory:\n"
    ensures path != [] ==> r == "Files in directory " + path + ":\n"
  {
    if path == "" then "Files in root directory:\n" else "Files in directory " + path + ":\n"
  }

  /** The directory asked for: trimmed, with one leading "/" dropped. */
  function DirectoryPath(input: string): string
  {
    TrimPrefix(TrimSpace(input), "/")
  }

  /** The entries GitHub returns for a path: a file has none. */
  function DirectoryItems(c: Contents): seq<Item>
  {
    if c.Directory? then c.items else []
  }

  const DirectoryFailed: string := "failed to fetch directory contents for "

  /** `GetDirectoryFilesTool.Call`: the heading, then one line per file or directory entry;
      a path that names a file lists nothing. */
  method GetDirectoryFiles(input: string, gh: Service) returns (r: Answer)
    ensures gh.contents(DirectoryPath(input)).Unavailable? ==>
      var p := DirectoryPath(input);
      var e := gh.contents(p).error;
      r == Refused(Says(e), DirectoryFailed + p + ": " + e)
    ensures !gh.contents(DirectoryPath(input)).Unavailable? ==>
      var p := DirectoryPath(input);
      r == Answered(DirectoryHeader(p) + Render(DirectoryItems(gh.contents(p)), ItemLine))
  {
    var path := DirectoryPath(input);
    var c := gh.contents(path);
    if c.Unavailable? {
      return Refused(Says(c.error), DirectoryFailed + path + ": " + c.error);
    }
    var out := WriteAll(DirectoryHeader(path), DirectoryItems(c), ItemLine);
    r := Answered(out);
  }

  /** When no name holds a line break, the listing reads back as its heading and one line per
      file or directory entry, in order, and nothing for the other entries. */
  lemma DirectoryListed(items: seq<Item>)
    requires forall k :: 0 <= k < |items| ==> '\n' !in items[k].name
    ensures Split(Render(items, ItemLine), '\n') == Entries(Kept(items, Shown), ItemEntry) + [""]
  {
    SkipsHidden(items);
    var shown := Kept(items, Shown);
    forall k | 0 <= k < |shown|
      ensures ItemLine(k, shown[k]) == ItemEntry(k, shown[k]) + "\n" && '\n' !in ItemEntry(k, shown[k])
    {
      ItemUnbroken(k, shown[k]);
    }
    RenderLines(shown, ItemLine, ItemEntry);
  }

  lemma ItemUnbroken(k: nat, item: Item)
    requires '\n' !in item.name
    ensures '\n' !in ItemEntry(k, item)
  {
    assert '\n' !in FileIcon && '\n' !in DirIcon;
  }

  // ================================================================== searching

  const EmptyQuery: string := "search query cannot be empty"
  const NoResults: string := "No results found.\n"

  /** The search GitHub runs: the query restricted to the client's repository. */
  function SearchQuery(query: string, c: Client): string
  {
    query + " repo:" + c.owner + "/" + c.repo
  }

  /** A client made from the environment searches the repository the environment names. */
  lemma SearchesOwnRepository(env: Env, query: string)
    requires NewClient(env).Ok?
    ensures SearchQuery(query, NewClient(env).value) == query + " repo:" + Getenv(env, RepositoryVar)
  {
  }

  /** The line announcing how many results there are. */
  function CountLine(total: int): string
  {
    "Found " + Itoa(total) + " results:\n\n"
  }

  /** The count line and the results, or the message for no results. */
  function Findings<T>(found: Found<T>, block: (nat, T) -> string): (r: string)
    ensures found.total == 0 <==> r == NoResults
  {
    if found.total == 0 then NoResults
    else
      var r := CountLine(found.total) + Render(found.items, block);
      assert r[0] == 'F';
      r
  }

  /** One fragment a code hit matched. */
  function MatchLine(k: nat, fragment: string): string
  {
    "Match: " + fragment + "\n"
  }

  /** The first two lines of a code hit: its path and its repository. */
  function HitHead(hit: CodeHit): string
  {
    "File: " + hit.path + "\n" + "Repository: " + hit.repository + "\n"
  }

  /** One code hit: its path, its repository and the matched fragments. */
  function HitBlock(k: nat, hit: CodeHit): string
  {
    HitHead(hit) + Render(hit.fragments, MatchLine) + Separator
  }

  /** One turn of the hits loop, with the loop over the hit's fragments inside it. */
  method WriteHit(prefix: string, k: nat, hit: CodeHit) returns (out: string)
    ensures out == prefix + HitBlock(k, hit)
  {
    out := WriteAll(prefix + HitHead(hit), hit.fragments, MatchLine);
    out := out + Separator;
  }

  /** The hits loop. */
  method WriteHits(prefix: string, hits: seq<CodeHit>) returns (out: string)
    ensures out == prefix + Render(hits, HitBlock)
  {
    out := prefix;
    for i := 0 to |hits|
      invariant out == prefix + Render(hits[..i], HitBlock)
    {
      var next := WriteHit(out, i, hits[i]);
      AppendStep(prefix, out, hits, HitBlock, i, next);
      out := next;
    }
    assert hits[..|hits|] == hits;
  }

  /** The results of a code search after `prefix`. */
  method WriteCodeFindings(prefix: string, found: Found<CodeHit>) returns (out: string)
    ensures out == prefix + Findings(found, HitBlock)
  {
    if found.total == 0 {
      return prefix + NoResults;
    }
    out := WriteHits(prefix + CountLine(found.total), found.items);
  }

  function CodeIntro(query: string): string
  {
    "Code search results for '" + query + "':\n\n"
  }

  /** `SearchCodeTool.Call`: refuse an empty query, otherwise search the client's repository. */
  method SearchCode(input: string, c: Client, gh: Service) returns (r: Answer)
    ensures TrimSpace(input) == [] ==> r == Refuse(EmptyQuery)
    ensures TrimSpace(input) != [] ==>
      var found := gh.searchCode(SearchQuery(TrimSpace(input), c));
      && (found.Err? ==> r == Refused(Says(found.error), "failed to search code: " + found.error))
      && (found.Ok? ==> r == Answered(CodeIntro(TrimSpace(input)) + Findings(found.value, HitBlock)))
  {
    var query := TrimSpace(input);
    if query == "" {
      return Refuse(EmptyQuery);
    }
    match gh.searchCode(SearchQuery(query, c)) {
      case Err(e) =>
        return Refused(Says(e), "failed to search code: " + e);
      case Ok(found) =>
        var out := WriteCodeFindings(CodeIntro(query), found);
        return Answered(out);
    }
  }

  /** One issue or pull request found: labelled by what it is, then its state, author and
      creation time. */
  function ResultBlock(k: nat, issue: IssueInfo): string
  {
    (if issue.isPull then "PR #" else "Issue #") + Itoa(issue.number) + ": " + issue.title + "\n"
    + "State: " + issue.state + "\n"
    + "Author: " + issue.author + "\n"
    + "Created: " + issue.created + "\n"
    + Separator
  }

  /** A result block opens with "PR #" exactly when it describes a pull request, and with
      "Issue #" otherwise. */
  lemma ResultLabelled(k: nat, issue: IssueInfo)
    ensures var s := ResultBlock(k, issue);
      && (issue.isPull <==> |s| >= 4 && s[..4] == "PR #")
      && (!issue.isPull <==> |s| >= 7 && s[..7] == "Issue #")
  {
    var s := ResultBlock(k, issue);
    assert s[0] == (if issue.isPull then 'P' else 'I');
  }

  /** The results of an issue search after `prefix`. */
  method WriteIssueFindings(prefix: string, found: Found<IssueInfo>) returns (out: string)
    ensures out == prefix + Findings(found, ResultBlock)
  {
    if found.total == 0 {
      return prefix + NoResults;
    }
    out := WriteAll(prefix + CountLine(found.total), found.items, ResultBlock);
  }

  function IssuesIntro(query: string): string
  {
    "Search results for '" + query + "':\n\n"
  }

  /** `SearchIssuesAndPRsTool.Call`: refuse an empty query, otherwise search the client's
      repository. */
  method SearchIssuesAndPRs(input: string, c: Client, gh: Service) returns (r: Answer)
    ensures TrimSpace(input) == [] ==> r == Refuse(EmptyQuery)
    ensures TrimSpace(input) != [] ==>
      var found := gh.searchIssues(SearchQuery(TrimSpace(input), c));
      && (found.Err? ==> r == Refused(Says(found.error), "failed to search issues and PRs: " + found.error))
      && (found.Ok? ==> r == Answered(IssuesIntro(TrimSpace(input)) + Findings(found.value, ResultBlock)))
  {
    var query := TrimSpace(input);
    if query == "" {
      return Refuse(EmptyQuery);
    }
    match gh.searchIssues(SearchQuery(query, c)) {
      case Err(e) =>
        return Refused(Says(e), "failed to search issues and PRs: " + e);
      case Ok(found) =>
        var out := WriteIssueFindings(IssuesIntro(query), found);
        return Answered(out);
    }
  }
}
