/** The agent toolkit of agents/github_toolkit.go: one tool per `Run` mode of the API wrapper,
    each tidying the agent's input for its mode before handing it to `Run`. */
module AgentToolkit {
  import opened Results
  import opened Text
  import opened Decimal
  import opened Lists
  import opened GitHubWrapper

  // ================================================================== input preprocessing

  /** `strconv.Atoi` succeeds on the text. */
  predicate Parses(f: string) { Atoi(f).Some? }

  /** The integer modes: the canonical spelling of the whole text when it is a number, else of
      its first white-space separated field that is one, else the text itself. */
  function Numbered(s: string): string
  {
    match Atoi(s)
    case Some(n) => Itoa(n)
    case None =>
      var fields := Fields(s);
      var k := FirstWhere(fields, Parses);
      if k == -1 then s else Itoa(Atoi(fields[k]).value)
  }

  /** The two-part modes: the text around its first line break, each part trimmed, joined by
      a blank line; a text without a line break stays as it is. */
  function Rejoined(s: string): string
  {
    match Cut(s, "\n")
    case None => s
    case Some((first, rest)) => TrimSpace(first) + "\n\n" + TrimSpace(rest)
  }

  predicate IntegerMode(mode: string) { mode == "get_issue" || mode == "get_pull_request" }

  predicate TwoPartMode(mode: string) { mode == "comment_on_issue" || mode == "create_pull_request" }

  /** `preprocessInput`: trim, then tidy according to the mode. */
  function Preprocess(mode: string, input: string): (r: string)
  {
    var s := TrimSpace(input);
    if IntegerMode(mode) then Numbered(s)
    else if TwoPartMode(mode) then Rejoined(s)
    else s
  }

  /** Modes other than the integer and two-part ones receive the trimmed input. */
  lemma PreprocessTrims(mode: string, input: string)
    requires !IntegerMode(mode) && !TwoPartMode(mode)
    ensures Preprocess(mode, input) == TrimSpace(input)
  {
  }

  /** The two-part modes rejoin the trimmed input. */
  lemma PreprocessRejoins(mode: string, input: string)
    requires TwoPartMode(mode)
    ensures Preprocess(mode, input) == Rejoined(TrimSpace(input))
  {
  }

  /** The integer modes look for a number in the trimmed input. */
  lemma PreprocessNumbers(mode: string, input: string)
    requires IntegerMode(mode)
    ensures Preprocess(mode, input) == Numbered(TrimSpace(input))
  {
  }

  /** In an integer mode the result is the canonical spelling of a number the input holds
      (the whole trimmed input, or its first field that parses), or the trimmed input when it
      holds none. */
  lemma PreprocessNumber(mode: string, input: string)
    requires IntegerMode(mode)
    ensures var s := TrimSpace(input);
      var r := Preprocess(mode, input);
      if Atoi(s).Some? then r == Itoa(Atoi(s).value)
      else if exists i :: 0 <= i < |Fields(s)| && Parses(Fields(s)[i]) then
        exists i :: 0 <= i < |Fields(s)| && Atoi(Fields(s)[i]).Some? && r == Itoa(Atoi(Fields(s)[i]).value)
          && forall j :: 0 <= j < i ==> !Parses(Fields(s)[j])
      else r == s
  {
    var s := TrimSpace(input);
    if Atoi(s).None? {
      var k := FirstWhere(Fields(s), Parses);
      if k != -1 {
        assert Parses(Fields(s)[k]);
      }
    }
  }

  /** An integer mode's output is a number's canonical spelling or the unparsable trimmed text;
      either way a second pass leaves it alone. */
  lemma NumberedIdempotent(mode: string, input: string)
    requires IntegerMode(mode)
    ensures Preprocess(mode, Preprocess(mode, input)) == Preprocess(mode, input)
  {
    var s := TrimSpace(input);
    var r := Numbered(s);
    PreprocessNumbers(mode, input);
    PreprocessNumbers(mode, r);
    TrimSpaceIdempotent(input);
    if r == s {
      assert Numbered(TrimSpace(r)) == Numbered(s);
      if Atoi(s).Some? {
        AtoiItoa(Atoi(s).value);
      }
    } else {
      var n :| InRange(n) && r == Itoa(n) by {
        if Atoi(s).Some? {
          var n := Atoi(s).value;
          assert InRange(n) && r == Itoa(n);
        } else {
          var fields := Fields(s);
          var k := FirstWhere(fields, Parses);
          var n := Atoi(fields[k]).value;
          assert InRange(n) && r == Itoa(n);
        }
      }
      AtoiItoa(n);
      TrimAccepted(r);
    }
  }

  /** A number padded with white space becomes the number's canonical spelling. */
  lemma PaddedNumber(mode: string, pad: string, n: int, pad': string)
    requires IntegerMode(mode) && InRange(n)
    requires forall k :: 0 <= k < |pad| ==> IsSpace(pad[k])
    requires forall k :: 0 <= k < |pad'| ==> IsSpace(pad'[k])
    ensures Preprocess(mode, pad + Itoa(n) + pad') == Itoa(n)
  {
    var input := pad + Itoa(n) + pad';
    PreprocessNumbers(mode, input);
    AtoiItoa(n);
    TrimAccepted(Itoa(n));
    var m := Itoa(n);
    assert m[0] !in Spaces && m[|m| - 1] !in Spaces;
    TrimPadded(pad, m, pad', Spaces);
  }

  /** A trimmed text whose first rune is not a space trims to a non-empty text. */
  lemma TrimKeepsStart(a: string)
    requires a != [] && !IsSpace(a[0])
    ensures TrimSpace(a) != [] && TrimSpace(a)[0] == a[0]
  {
    assert a[0] !in Spaces;
    assert TrimLeft(a, Spaces) == a;
  }

  lemma TrimKeepsEnd(b: string)
    requires b != [] && !IsSpace(b[|b| - 1])
    ensures TrimSpace(b) != [] && TrimSpace(b)[|TrimSpace(b)| - 1] == b[|b| - 1]
  {
    var l := TrimLeft(b, Spaces);
    assert b[|b| - 1] !in Spaces;
    assert l != [] && l[|l| - 1] == b[|b| - 1];
    assert TrimRight(l, Spaces) == l;
  }

  /** Runes that are not spaces at both ends: what `TrimSpace` leaves alone. */
  predicate Trimmed(s: string)
  {
    s == [] || (!IsSpace(s[0]) && !IsSpace(s[|s| - 1]))
  }

  lemma TrimmedFixed(s: string)
    requires Trimmed(s)
    ensures TrimSpace(s) == s
  {
    if s != [] {
      assert s[0] !in Spaces && s[|s| - 1] !in Spaces;
    }
    TrimFixed(s, Spaces);
  }

  /** A line break and then a trimmed text trims to that text. */
  lemma TrimLeadingBreak(b: string)
    requires b != [] && Trimmed(b)
    ensures TrimSpace("\n" + b) == b
  {
    assert "\n"[0] in Spaces;
    assert b[0] !in Spaces && b[|b| - 1] !in Spaces;
    TrimPadded("\n", b, "", Spaces);
    assert "\n" + b + "" == "\n" + b;
  }

  /** Two trimmed parts around one line break, the first without a line break, come out
      around a blank line. */
  lemma RejoinedParts(a: string, b: string)
    requires Trimmed(a) && '\n' !in a
    requires Trimmed(b)
    ensures Rejoined(a + "\n" + b) == a + "\n\n" + b
  {
    CutFresh(a, "\n", b);
    TrimmedFixed(a);
    TrimmedFixed(b);
  }

  /** The joined text is itself trimmed, and rejoining it changes nothing. */
  lemma RejoinedFixed(a: string, b: string)
    requires a != [] && Trimmed(a) && '\n' !in a
    requires b != [] && Trimmed(b)
    ensures Trimmed(a + "\n\n" + b)
    ensures Rejoined(a + "\n\n" + b) == a + "\n\n" + b
  {
    var r := a + "\n\n" + b;
    assert r[0] == a[0] && r[|r| - 1] == b[|b| - 1];
    CutFresh(a, "\n", "\n" + b);
    assert a + "\n" + ("\n" + b) == r;
    TrimmedFixed(a);
    TrimLeadingBreak(b);
  }

  /** What the first break of a trimmed text separates: a non-empty first line without a
      break that starts like the text, and a non-empty remainder that ends like it. */
  lemma CutTrimmed(s: string, first: string, rest: string)
    requires Trimmed(s) && Cut(s, "\n") == Some((first, rest))
    ensures first != [] && !IsSpace(first[0]) && '\n' !in first
    ensures rest != [] && !IsSpace(rest[|rest| - 1])
  {
    assert s == first + "\n" + rest;
    assert first != [];
    assert s[0] == first[0];
    assert rest != [];
    assert s[|s| - 1] == rest[|rest| - 1];
    forall j | 0 <= j < |first| ensures first[j] != '\n' {
      OccursAtChar(s, '\n', j);
      assert s[j] == first[j];
    }
  }

  /** Trimming a text without a break gives a text without a break. */
  lemma TrimNoBreak(a: string)
    requires '\n' !in a
    ensures '\n' !in TrimSpace(a)
  {
    var i := |a| - |TrimLeft(a, Spaces)|;
    assert TrimSpace(a) == a[i..i + |TrimSpace(a)|];
  }

  /** The output of the two-part modes on a trimmed text is trimmed and fixed by `Rejoined`. */
  lemma RejoinedStable(s: string)
    requires Trimmed(s)
    ensures Trimmed(Rejoined(s)) && Rejoined(Rejoined(s)) == Rejoined(s)
  {
    match Cut(s, "\n")
    case None =>
    case Some((first, rest)) =>
      CutTrimmed(s, first, rest);
      TrimKeepsStart(first);
      TrimKeepsEnd(rest);
      TrimNoBreak(first);
      RejoinedFixed(TrimSpace(first), TrimSpace(rest));
  }

  /** In a two-part mode a second pass leaves the output alone. */
  lemma RejoinedIdempotent(mode: string, input: string)
    requires TwoPartMode(mode)
    ensures Preprocess(mode, Preprocess(mode, input)) == Preprocess(mode, input)
  {
    var s := TrimSpace(input);
    PreprocessRejoins(mode, input);
    PreprocessRejoins(mode, Rejoined(s));
    RejoinedStable(s);
    TrimmedFixed(Rejoined(s));
  }

  /** A trimmed number and a trimmed comment on two lines come out around a blank line. */
  lemma PreprocessTwoParts(mode: string, a: string, b: string)
    requires TwoPartMode(mode)
    requires a != [] && Trimmed(a) && '\n' !in a
    requires b != [] && Trimmed(b)
    ensures Preprocess(mode, a + "\n" + b) == a + "\n\n" + b
  {
    var s := a + "\n" + b;
    PreprocessRejoins(mode, s);
    assert s[0] == a[0] && s[|s| - 1] == b[|b| - 1];
    TrimmedFixed(s);
    RejoinedParts(a, b);
  }

  // ================================================================== the tools

  /** A tool: the name the agent calls it by and the `Run` mode it performs. The description
      text written for the language model is not part of this model. */
  datatype AgentTool = AgentTool(name: string, mode: string)

  function Name(t: AgentTool): string { t.name }

  /** The tool is called `name`. */
  function Named(name: string): AgentTool -> bool
  {
    (t: AgentTool) => t.name == name
  }

  /** The tools every toolkit has, in order. */
  const CoreTools: seq<AgentTool> := [
    AgentTool("Get Issues", "get_issues"),
    AgentTool("Get Issue", "get_issue"),
    AgentTool("Comment on Issue", "comment_on_issue"),
    AgentTool("List open pull requests (PRs)", "list_open_pull_requests"),
    AgentTool("Get Pull Request", "get_pull_request"),
    AgentTool("Create Pull Request", "create_pull_request"),
    AgentTool("Create File", "create_file"),
    AgentTool("Read File", "read_file"),
    AgentTool("Update File", "update_file"),
    AgentTool("Delete File", "delete_file"),
    AgentTool("Overview of existing files in Main branch", "list_files_in_main_branch"),
    AgentTool("Overview of files in current working branch", "list_files_in_bot_branch"),
    AgentTool("List branches in this repository", "list_branches_in_repo"),
    AgentTool("Set active branch", "set_active_branch"),
    AgentTool("Create a new branch", "create_branch"),
    AgentTool("Get files from a directory", "get_files_from_directory"),
    AgentTool("Search issues and pull requests", "search_issues_and_prs"),
    AgentTool("Search code", "search_code")]

  /** The release tools, present only on request. */
  const ReleaseTools: seq<AgentTool> := [
    AgentTool("Get latest release", "get_latest_release"),
    AgentTool("Get releases", "get_releases"),
    AgentTool("Get release", "get_release")]

  /** The tool list of a toolkit. */
  function Catalogue(includeReleaseTools: bool): seq<AgentTool>
  {
    CoreTools + (if includeReleaseTools then ReleaseTools else [])
  }

  /** `createTools`: the core tools in order, then the release tools when asked for. */
  method CreateTools(includeReleaseTools: bool) returns (toolList: seq<AgentTool>)
    ensures toolList == Catalogue(includeReleaseTools)
  {
    toolList := [];
    toolList := toolList + [AgentTool("Get Issues", "get_issues")];
    toolList := toolList + [AgentTool("Get Issue", "get_issue")];
    toolList := toolList + [AgentTool("Comment on Issue", "comment_on_issue")];
    toolList := toolList + [AgentTool("List open pull requests (PRs)", "list_open_pull_requests")];
    toolList := toolList + [AgentTool("Get Pull Request", "get_pull_request")];
    toolList := toolList + [AgentTool("Create Pull Request", "create_pull_request")];
    toolList := toolList + [AgentTool("Create File", "create_file")];
    toolList := toolList + [AgentTool("Read File", "read_file")];
    toolList := toolList + [AgentTool("Update File", "update_file")];
    toolList := toolList + [AgentTool("Delete File", "delete_file")];
    toolList := toolList + [AgentTool("Overview of existing files in Main branch", "list_files_in_main_branch")];
    toolList := toolList + [AgentTool("Overview of files in current working branch", "list_files_in_bot_branch")];
    toolList := toolList + [AgentTool("List branches in this repository", "list_branches_in_repo")];
    toolList := toolList + [AgentTool("Set active branch", "set_active_branch")];
    toolList := toolList + [AgentTool("Create a new branch", "create_branch")];
    toolList := toolList + [AgentTool("Get files from a directory", "get_files_from_directory")];
    toolList := toolList + [AgentTool("Search issues and pull requests", "search_issues_and_prs")];
    toolList := toolList + [AgentTool("Search code", "search_code")];
    assert toolList == CoreTools;
    if includeReleaseTools {
      toolList := toolList + [AgentTool("Get latest release", "get_latest_release")];
      toolList := toolList + [AgentTool("Get releases", "get_releases")];
      toolList := toolList + [AgentTool("Get release", "get_release")];
      assert toolList == CoreTools + ReleaseTools;
    } else {
      assert toolList == CoreTools + [];
    }
  }

  function ModesOf(tools: seq<AgentTool>): (r: seq<string>)
    ensures |r| == |tools| && forall i :: 0 <= i < |tools| ==> r[i] == tools[i].mode
  {
    seq(|tools|, i requires 0 <= i < |tools| => tools[i].mode)
  }

  /** With the release tools, the toolkit has a tool for each mode `Run` knows, and no other. */
  lemma CatalogueCoversModes(mode: string)
    ensures mode in ModesOf(Catalogue(true)) <==> mode in GitHubWrapper.Modes
  {
    assert ModesOf(Catalogue(true)) == [
      "get_issues", "get_issue", "comment_on_issue", "list_open_pull_requests", "get_pull_request",
      "create_pull_request", "create_file", "read_file", "update_file", "delete_file",
      "list_files_in_main_branch", "list_files_in_bot_branch", "list_branches_in_repo",
      "set_active_branch", "create_branch", "get_files_from_directory", "search_issues_and_prs",
      "search_code", "get_latest_release", "get_releases", "get_release"];
  }

  /** Whether or not release tools are included, every tool's mode is one `Run` knows, so no
      tool is answered with the unknown-mode error. */
  lemma CatalogueModesKnown(includeReleaseTools: bool, i: nat)
    requires i < |Catalogue(includeReleaseTools)|
    ensures Catalogue(includeReleaseTools)[i].mode in GitHubWrapper.Modes
  {
  }

  /** The names of the tools from position `lo` up to `hi` differ from every later name. */
  lemma NamesDifferFrom(lo: nat, hi: nat)
    requires lo <= hi <= |Catalogue(true)|
    ensures forall i, j :: lo <= i < hi && i < j < |Catalogue(true)| ==>
      Catalogue(true)[i].name != Catalogue(true)[j].name
  {
  }

  /** No two tools share a name. */
  lemma CatalogueDistinct(includeReleaseTools: bool)
    ensures Distinct(Catalogue(includeReleaseTools), Name)
  {
    NamesDifferFrom(0, 6);
    NamesDifferFrom(6, 12);
    NamesDifferFrom(12, 21);
    assert Catalogue(includeReleaseTools) == Catalogue(true)[..|Catalogue(includeReleaseTools)|];
  }

  /** The release tools are found only when they were asked for. */
  lemma ReleaseToolsOnRequest(includeReleaseTools: bool, i: nat)
    requires i < |ReleaseTools|
    ensures ReleaseTools[i] in Catalogue(includeReleaseTools) <==> includeReleaseTools
  {
  }

  /** Searching by a tool's own name finds that tool when names are distinct. */
  lemma FindsOwnName(tools: seq<AgentTool>, i: nat)
    requires i < |tools| && Distinct(tools, Name)
    ensures FirstWhere(tools, Named(tools[i].name)) == i
  {
    var p := Named(tools[i].name);
    assert p(tools[i]);
    forall j | 0 <= j < i ensures !p(tools[j]) {
      assert Name(tools[j]) != Name(tools[i]);
    }
  }

  // ================================================================== calling a tool

  const OperationFailed: string := "GitHub operation failed: "

  /** The error of a failed operation, wrapped; everything else as it was. */
  function Wrapped(o: Outcome): (r: Outcome)
    ensures o.Failed? <==> r.Failed?
    ensures r.Failed? ==> r.error == OperationFailed + o.error
    ensures !o.Failed? ==> r == o
  {
    if o.Failed? then Failed(OperationFailed + o.error) else o
  }

  /** `Call`: the tool's mode on the preprocessed input, through the shared wrapper. */
  method Call(tool: AgentTool, wrapper: GitHubAPIWrapper, input: string, remote: Remote) returns (step: Step)
    modifies wrapper
    ensures var q := Preprocess(tool.mode, input);
      tool.mode !in BranchModes ==>
        step == Step(Wrapped(Perform(old(wrapper.View()), tool.mode, q, remote).out),
                     Perform(old(wrapper.View()), tool.mode, q, remote).sent)
        && wrapper.activeBranch == old(wrapper.activeBranch)
    ensures var q := Preprocess(tool.mode, input);
      tool.mode == "set_active_branch" ==>
        step == Step(Wrapped(SwitchOutcome(q, remote.branches)), [])
        && wrapper.activeBranch == (if remote.branches.Ok? && q in remote.branches.value then q else old(wrapper.activeBranch))
    ensures var base := remote.getRef("refs/heads/" + wrapper.githubBaseBranch);
      tool.mode == "create_branch" && base.Err? ==>
        step == Step(Failed(OperationFailed + "failed to get base branch: " + base.error), [])
        && wrapper.activeBranch == old(wrapper.activeBranch)
    ensures var q := Preprocess(tool.mode, input);
      var base := remote.getRef("refs/heads/" + wrapper.githubBaseBranch);
      tool.mode == "create_branch" && base.Ok? ==>
        var t := Attempts(Candidates(q), base.value, remote.send, Taken);
        step == Step(Wrapped(EndOutcome(q, t.end)), t.sent)
        && wrapper.activeBranch == (if t.end.Created? then t.end.name else old(wrapper.activeBranch))
    ensures step.out.Failed? ==> HasPrefix(step.out.error, OperationFailed)
  {
    var processed := Preprocess(tool.mode, input);
    var inner := wrapper.Run(tool.mode, processed, remote);
    step := Step(Wrapped(inner.out), inner.sent);
  }

  // ================================================================== the toolkit

  datatype Options = Options(includeReleaseTools: bool)

  /** Only the first options value counts; without one, release tools are left out. */
  function Included(opts: seq<Options>): bool
  {
    |opts| > 0 && opts[0].includeReleaseTools
  }

  /** `FromGitHubAPIWrapper`: a toolkit over the wrapper, with or without the release tools. */
  method FromGitHubAPIWrapper(wrapper: GitHubAPIWrapper, includeReleaseTools: bool) returns (t: GitHubAgentToolkit)
    ensures fresh(t) && t.wrapper == wrapper && t.includeReleaseTools == includeReleaseTools
    ensures t.tools == Catalogue(includeReleaseTools)
  {
    t := new GitHubAgentToolkit(wrapper, [Options(includeReleaseTools)]);
  }

  class GitHubAgentToolkit {
    const wrapper: GitHubAPIWrapper
    const includeReleaseTools: bool
    const tools: seq<AgentTool>

    /** `NewGitHubAgentToolkit`. */
    constructor (wrapper: GitHubAPIWrapper, opts: seq<Options>)
      ensures this.wrapper == wrapper && includeReleaseTools == Included(opts)
      ensures tools == Catalogue(Included(opts))
    {
      var list := CreateTools(Included(opts));
      this.wrapper := wrapper;
      includeReleaseTools := Included(opts);
      tools := list;
    }

    /** `GetToolByName`: the first tool with that name, or none. */
    method GetToolByName(name: string) returns (r: Option<AgentTool>)
      ensures var k := FirstWhere(tools, Named(name));
        r == if k == -1 then None else Some(tools[k])
    {
      for i := 0 to |tools|
        invariant forall j :: 0 <= j < i ==> tools[j].name != name
      {
        if tools[i].name == name {
          assert Named(name)(tools[i]);
          return Some(tools[i]);
        }
      }
      assert forall j :: 0 <= j < |tools| ==> !Named(name)(tools[j]);
      return None;
    }

    /** `GetToolNames`: the names, filled in by position. */
    method GetToolNames() returns (names: seq<string>)
      ensures |names| == |tools|
      ensures forall i :: 0 <= i < |tools| ==> names[i] == tools[i].name
    {
      var a := new string[|tools|];
      for i := 0 to |tools|
        invariant forall j :: 0 <= j < i ==> a[j] == tools[j].name
      {
        a[i] := tools[i].name;
      }
      names := a[..];
    }
  }
}
