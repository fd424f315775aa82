/** The document loaders of documentloaders/github.go: the issues of a repository, fetched
    page by page and turned into documents with metadata, and the files of one branch. An
    HTTP exchange is an answer read from the caller's script; decoded JSON is a `Json` tree. */
module DocumentLoaders {
  import opened Results
  import opened Text
  import opened Decimal
  import opened Environment
  import opened Lists

  // ================================================================== JSON values

  /** A JSON value as `encoding/json` decodes it into an `interface{}`: null is nil, every
      number a `float64` (kept here as an opaque real), an object a map. */
  datatype Json =
    | Null
    | Bool(b: bool)
    | Number(n: real)
    | Str(s: string)
    | Array(items: seq<Json>)
    | Obj(fields: map<string, Json>)

  type JsonObject = map<string, Json>

  /** `getString`: the text under `key`, or "" when it is missing or not a text. */
  function GetString(data: JsonObject, key: string): string
  {
    if key in data && data[key].Str? then data[key].s else ""
  }

  /** `getNestedString`: `getString` on the object under `parent`, "" when there is none. */
  function GetNestedString(data: JsonObject, parent: string, child: string): string
  {
    if parent in data && data[parent].Obj? then GetString(data[parent].fields, child) else ""
  }

  /** `getFloat64`: the number under `key`, or 0. */
  function GetFloat64(data: JsonObject, key: string): real
  {
    if key in data && data[key].Number? then data[key].n else 0.0
  }

  /** `getBool`: the boolean under `key`, or false. */
  function GetBool(data: JsonObject, key: string): bool
  {
    if key in data && data[key].Bool? then data[key].b else false
  }

  /** Each getter hands back what was stored under its key, when it has the getter's type. */
  lemma GettersStored(data: JsonObject, key: string, child: string, s: string, n: real, b: bool)
    ensures GetString(data[key := Str(s)], key) == s
    ensures GetFloat64(data[key := Number(n)], key) == n
    ensures GetBool(data[key := Bool(b)], key) == b
    ensures GetNestedString(data[key := Obj(map[child := Str(s)])], key, child) == s
  {
  }

  /** ... and its zero value when the key is missing or holds another type. */
  lemma GettersDefault(data: JsonObject, key: string, child: string)
    ensures !(key in data && data[key].Str?) ==> GetString(data, key) == ""
    ensures !(key in data && data[key].Number?) ==> GetFloat64(data, key) == 0.0
    ensures !(key in data && data[key].Bool?) ==> GetBool(data, key) == false
    ensures !(key in data && data[key].Obj?) ==> GetNestedString(data, key, child) == ""
  {
  }

  // ================================================================== issues as documents

  /** A loaded document: its text and its metadata. Go keeps the metadata in a map from
      field name to value; each loader's fixed set of fields is a record here. */
  datatype Document = Document(content: string, metadata: Metadata)

  datatype Metadata =
    | IssueFields(
        url: string, title: string, creator: string, createdAt: string, comments: real,
        state: string, labels: seq<string>, assignee: string, milestone: string,
        locked: bool, number: real, isPullRequest: bool)
    | FileFields(path: string, sha: Json, source: string)

  /** A label element that `extractLabels` keeps under the name `name`. */
  predicate NamedLabel(item: Json, name: string)
  {
    item.Obj? && name != "" && GetString(item.fields, "name") == name
  }

  /** The loop of `extractLabels`: the non-empty `name` of each label that is an object,
      in order; other elements are skipped. */
  function LabelNames(labels: seq<Json>): (r: seq<string>)
    ensures |r| <= |labels|
    ensures forall i :: 0 <= i < |r| ==> r[i] != ""
  {
    if labels == [] then []
    else
      var name := if labels[0].Obj? then GetString(labels[0].fields, "name") else "";
      (if name != "" then [name] else []) + LabelNames(labels[1..])
  }

  /** The names of a list are the names of its two halves, in order. */
  lemma {:induction false} LabelNamesAppend(a: seq<Json>, b: seq<Json>)
    ensures LabelNames(a + b) == LabelNames(a) + LabelNames(b)
  {
    if a == [] {
      assert a + b == b;
    } else {
      assert (a + b)[0] == a[0];
      assert (a + b)[1..] == a[1..] + b;
      LabelNamesAppend(a[1..], b);
    }
  }

  /** A name is listed exactly when some label carries it. */
  lemma {:induction false} LabelNamesListed(labels: seq<Json>, name: string)
    ensures name in LabelNames(labels) <==> exists i :: 0 <= i < |labels| && NamedLabel(labels[i], name)
  {
    if labels != [] {
      LabelNamesListed(labels[1..], name);
      if exists i :: 0 <= i < |labels| && NamedLabel(labels[i], name) {
        var i :| 0 <= i < |labels| && NamedLabel(labels[i], name);
        if i > 0 {
          assert NamedLabel(labels[1..][i - 1], name);
        }
      }
      if exists i :: 0 <= i < |labels[1..]| && NamedLabel(labels[1..][i], name) {
        var i :| 0 <= i < |labels[1..]| && NamedLabel(labels[1..][i], name);
        assert NamedLabel(labels[i + 1], name);
      }
    }
  }

  /** `extractLabels`: the label names when `labels` is an array, otherwise none. */
  function ExtractLabels(issue: JsonObject): (r: seq<string>)
    ensures !(LabelsKey in issue && issue[LabelsKey].Array?) ==> r == []
  {
    if LabelsKey in issue && issue[LabelsKey].Array? then LabelNames(issue[LabelsKey].items) else []
  }

  /** The extracted names are exactly the names of the array's label objects. */
  lemma ExtractLabelsListed(issue: JsonObject, name: string)
    requires LabelsKey in issue && issue[LabelsKey].Array?
    ensures name in ExtractLabels(issue) <==>
      exists i :: 0 <= i < |issue[LabelsKey].items| && NamedLabel(issue[LabelsKey].items[i], name)
  {
    LabelNamesListed(issue[LabelsKey].items, name);
  }

  /** `getAssignee`: the login of the assignee object. A JSON null is no object, so Go's
      extra nil test adds nothing. */
  function GetAssignee(issue: JsonObject): (r: string)
    ensures r == GetNestedString(issue, AssigneeKey, LoginKey)
  {
    if AssigneeKey in issue && issue[AssigneeKey].Obj? then GetString(issue[AssigneeKey].fields, LoginKey)
    else ""
  }

  /** `getMilestone`: the title of the milestone object. */
  function GetMilestone(issue: JsonObject): (r: string)
    ensures r == GetNestedString(issue, MilestoneKey, TitleKey)
  {
    if MilestoneKey in issue && issue[MilestoneKey].Obj? then GetString(issue[MilestoneKey].fields, TitleKey)
    else ""
  }

  /** `"pull_request"` holds a non-nil value. */
  predicate IsPull(issue: JsonObject)
  {
    PullKey in issue && issue[PullKey] != Null
  }

  /** `parseIssue`: the body is the content, the title standing in for an empty or missing
      body; the metadata carries the twelve issue fields. `ParsedIssue` states the rest. */
  function ParseIssue(issue: JsonObject): (d: Document)
    ensures d.metadata.IssueFields? && d.metadata.isPullRequest == IsPull(issue)
  {
    var body := GetString(issue, BodyKey);
    var meta := IssueFields(
      GetString(issue, URLKey), GetString(issue, TitleKey), GetNestedString(issue, UserKey, LoginKey),
      GetString(issue, CreatedKey), GetFloat64(issue, CommentsKey), GetString(issue, StateKey),
      ExtractLabels(issue), GetAssignee(issue), GetMilestone(issue), GetBool(issue, LockedKey),
      GetFloat64(issue, NumberKey), IsPull(issue));
    Document(if body == "" then GetString(issue, TitleKey) else body, meta)
  }

  // The keys `parseIssue` reads.
  const BodyKey: string := "body"
  const URLKey: string := "html_url"
  const TitleKey: string := "title"
  const UserKey: string := "user"
  const LoginKey: string := "login"
  const CreatedKey: string := "created_at"
  const CommentsKey: string := "comments"
  const StateKey: string := "state"
  const LockedKey: string := "locked"
  const NumberKey: string := "number"
  const LabelsKey: string := "labels"
  const AssigneeKey: string := "assignee"
  const MilestoneKey: string := "milestone"
  const PullKey: string := "pull_request"

  /** The content is the body, or the title when the body is empty or missing, so it is
      empty only when both are; the title and the label names are carried over. */
  lemma ParsedIssue(issue: JsonObject)
    ensures var d := ParseIssue(issue);
      && (GetString(issue, BodyKey) != "" ==> d.content == GetString(issue, BodyKey))
      && (GetString(issue, BodyKey) == "" ==> d.content == GetString(issue, TitleKey))
      && (d.content == "" <==> GetString(issue, BodyKey) == "" && GetString(issue, TitleKey) == "")
      && d.metadata.title == GetString(issue, TitleKey) && d.metadata.labels == ExtractLabels(issue)
  {
  }

  // ================================================================== the issues loader

  const DefaultAPI: string := "https://api.github.com"
  const TokenVariable: string := "GITHUB_PERSONAL_ACCESS_TOKEN"
  const EmptyRepository: string := "repository cannot be empty"
  const TokenRequired: string := "GITHUB_PERSONAL_ACCESS_TOKEN environment variable is required"

  /** `GitHubIssuesLoader`: the repository, the token, the API root and the filters. */
  datatype IssuesLoader = IssuesLoader(
    repo: string,
    accessToken: string,
    apiURL: string,
    includePRs: bool,
    milestone: Option<string>,
    state: string,
    assignee: string,
    creator: string,
    mentioned: string,
    labels: seq<string>,
    sort: string,
    direction: string,
    since: string,
    page: Option<int>,
    perPage: Option<int>)

  /** The options of `NewGitHubIssuesLoader`, each setting its fields. */
  datatype IssuesOption =
    | WithAccessToken(token: string)
    | WithIncludePRs(prs: bool)
    | WithState(state: string)
    | WithLabels(labels: seq<string>)
    | WithMilestone(milestone: string)
    | WithAssignee(assignee: string)
    | WithCreator(creator: string)
    | WithSort(sort: string, direction: string)
    | WithSince(since: string)
    | WithPagination(page: int, perPage: int)

  function ApplyIssues(l: IssuesLoader, opt: IssuesOption): IssuesLoader
  {
    match opt
    case WithAccessToken(t) => l.(accessToken := t)
    case WithIncludePRs(b) => l.(includePRs := b)
    case WithState(s) => l.(state := s)
    case WithLabels(ls) => l.(labels := ls)
    case WithMilestone(m) => l.(milestone := Some(m))
    case WithAssignee(a) => l.(assignee := a)
    case WithCreator(c) => l.(creator := c)
    case WithSort(s, d) => l.(sort := s, direction := d)
    case WithSince(s) => l.(since := s)
    case WithPagination(p, pp) => l.(page := Some(p), perPage := Some(pp))
  }

  /** The options applied in order, each seeing the loader the previous ones left. */
  function ApplyAllIssues(l: IssuesLoader, opts: seq<IssuesOption>): (r: IssuesLoader)
    ensures r.repo == l.repo && r.apiURL == l.apiURL
    decreases |opts|
  {
    if opts == [] then l else ApplyAllIssues(ApplyIssues(l, opts[0]), opts[1..])
  }

  /** The defaults: pull requests included, open issues, the public API. */
  function IssuesDefaults(repo: string, token: string): IssuesLoader
  {
    IssuesLoader(repo, token, DefaultAPI, true, None, "open", "", "", "", [], "", "", "", None, None)
  }

  /** `NewGitHubIssuesLoader` as written: the repository, then the environment's token is
      checked, and only then are the options applied. */
  function IssuesLoaderFor(repo: string, env: Env, opts: seq<IssuesOption>): (r: Result<IssuesLoader>)
    ensures repo == "" ==> r == Err(EmptyRepository)
    ensures repo != "" && Getenv(env, TokenVariable) == "" ==> r == Err(TokenRequired)
    ensures r.Ok? ==> r.value.repo == repo && r.value.apiURL == DefaultAPI
  {
    if repo == "" then Err(EmptyRepository)
    else if Getenv(env, TokenVariable) == "" then Err(TokenRequired)
    else Ok(ApplyAllIssues(IssuesDefaults(repo, Getenv(env, TokenVariable)), opts))
  }

  /** The constructor's loop over the options. */
  method NewIssuesLoader(repo: string, env: Env, opts: seq<IssuesOption>) returns (r: Result<IssuesLoader>)
    ensures r == IssuesLoaderFor(repo, env, opts)
  {
    if repo == "" {
      return Err(EmptyRepository);
    }
    var loader := IssuesDefaults(repo, Getenv(env, TokenVariable));
    if loader.accessToken == "" {
      return Err(TokenRequired);
    }
    for i := 0 to |opts|
      invariant ApplyAllIssues(loader, opts[i..]) == ApplyAllIssues(IssuesDefaults(repo, Getenv(env, TokenVariable)), opts)
    {
      assert opts[i..][1..] == opts[i + 1..];
      loader := ApplyIssues(loader, opts[i]);
    }
    return Ok(loader);
  }

  /** Without the environment variable no option helps: a token passed as an option is
      never consulted. */
  lemma IssuesTokenOptionIgnored(repo: string, env: Env, token: string)
    requires repo != "" && Getenv(env, TokenVariable) == ""
    ensures IssuesLoaderFor(repo, env, [WithAccessToken(token)]) == Err(TokenRequired)
  {
  }

  /** The evidently intended constructor: the token is checked once the options are in. */
  function IssuesLoaderIntended(repo: string, env: Env, opts: seq<IssuesOption>): (r: Result<IssuesLoader>)
    ensures repo == "" ==> r == Err(EmptyRepository)
    ensures r.Ok? ==> r.value.repo == repo && r.value.accessToken != ""
  {
    if repo == "" then Err(EmptyRepository)
    else
      var l := ApplyAllIssues(IssuesDefaults(repo, Getenv(env, TokenVariable)), opts);
      if l.accessToken == "" then Err(TokenRequired) else Ok(l)
  }

  /** With the intended order a token option rescues a missing environment variable. */
  lemma IssuesTokenOptionHonoured(repo: string, env: Env, token: string)
    requires repo != "" && token != ""
    ensures IssuesLoaderIntended(repo, env, [WithAccessToken(token)])
      == Ok(IssuesDefaults(repo, token))
  {
    var l := IssuesDefaults(repo, Getenv(env, TokenVariable));
    assert ApplyAllIssues(l, [WithAccessToken(token)]) == ApplyAllIssues(ApplyIssues(l, WithAccessToken(token)), []);
  }

  /** When the environment has a token, both orders agree. */
  lemma IssuesIntendedAgrees(repo: string, env: Env, opts: seq<IssuesOption>)
    requires Getenv(env, TokenVariable) != ""
    requires forall i :: 0 <= i < |opts| ==> opts[i] != WithAccessToken("")
    ensures IssuesLoaderIntended(repo, env, opts) == IssuesLoaderFor(repo, env, opts)
  {
    if repo != "" {
      TokenStays(IssuesDefaults(repo, Getenv(env, TokenVariable)), opts);
    }
  }

  lemma {:induction false} TokenStays(l: IssuesLoader, opts: seq<IssuesOption>)
    requires l.accessToken != ""
    requires forall i :: 0 <= i < |opts| ==> opts[i] != WithAccessToken("")
    ensures ApplyAllIssues(l, opts).accessToken != ""
    decreases |opts|
  {
    if opts != [] {
      assert forall i :: 0 <= i < |opts[1..]| ==> opts[1..][i] == opts[i + 1];
      TokenStays(ApplyIssues(l, opts[0]), opts[1..]);
    }
  }

  // ------------------------------------------------------------------ the query string

  /** The query parameters of the issues endpoint; `Key` spells each one. */
  datatype ParamName =
    | Milestone | State | Assignee | Creator | Mentioned | Labels | Sort | Direction | Since
    | Page | PerPage

  function Key(name: ParamName): string
  {
    match name
    case Milestone => "milestone"
    case State => "state"
    case Assignee => "assignee"
    case Creator => "creator"
    case Mentioned => "mentioned"
    case Labels => "labels"
    case Sort => "sort"
    case Direction => "direction"
    case Since => "since"
    case Page => "page"
    case PerPage => "per_page"
  }

  /** A text filter is set when it is not empty. */
  function Given(s: string): Option<string>
  {
    if s != "" then Some(s) else None
  }

  function InDecimal(n: Option<int>): Option<string>
  {
    if n.Some? then Some(Itoa(n.value)) else None
  }

  /** The value the loader gives parameter `name`, when that filter is set: non-empty texts,
      a non-empty label list joined by commas, and the numbers in decimal. */
  function Value(l: IssuesLoader, name: ParamName): Option<string>
  {
    match name
    case Milestone => l.milestone
    case State => Given(l.state)
    case Assignee => Given(l.assignee)
    case Creator => Given(l.creator)
    case Mentioned => Given(l.mentioned)
    case Labels => if |l.labels| > 0 then Some(Join(l.labels, ",")) else None
    case Sort => Given(l.sort)
    case Direction => Given(l.direction)
    case Since => Given(l.since)
    case Page => InDecimal(l.page)
    case PerPage => InDecimal(l.perPage)
  }

  /** One `params.Add`, or nothing when the filter is not set. */
  function Entry(name: ParamName, v: Option<string>): seq<(ParamName, string)>
  {
    if v.Some? then [(name, v.value)] else []
  }

  /** The query parameters `buildURL` collects, in the order it adds them. `url.Values` is a
      map; as every name is added at most once, the list of added pairs determines it. */
  function Filters(l: IssuesLoader): seq<(ParamName, string)>
  {
    Entry(Milestone, Value(l, Milestone)) + Entry(State, Value(l, State))
      + Entry(Assignee, Value(l, Assignee)) + Entry(Creator, Value(l, Creator))
      + Entry(Mentioned, Value(l, Mentioned)) + Entry(Labels, Value(l, Labels))
      + Entry(Sort, Value(l, Sort)) + Entry(Direction, Value(l, Direction))
      + Entry(Since, Value(l, Since)) + Entry(Page, Value(l, Page))
      + Entry(PerPage, Value(l, PerPage))
  }

  /** A parameter is added exactly when its filter is set, and with the filter's value. */
  lemma FiltersHold(l: IssuesLoader, name: ParamName, v: string)
    ensures (name, v) in Filters(l) <==> Value(l, name) == Some(v)
  {
    EntryHolds(l, Milestone, name, v);
    EntryHolds(l, State, name, v);
    EntryHolds(l, Assignee, name, v);
    EntryHolds(l, Creator, name, v);
    EntryHolds(l, Mentioned, name, v);
    EntryHolds(l, Labels, name, v);
    EntryHolds(l, Sort, name, v);
    EntryHolds(l, Direction, name, v);
    EntryHolds(l, Since, name, v);
    EntryHolds(l, Page, name, v);
    EntryHolds(l, PerPage, name, v);
  }

  lemma EntryHolds(l: IssuesLoader, n: ParamName, name: ParamName, v: string)
    ensures (name, v) in Entry(n, Value(l, n)) <==> n == name && Value(l, name) == Some(v)
  {
  }

  /** `if <filter set> { params.Add(name, value) }`. */
  method Add(params: seq<(ParamName, string)>, name: ParamName, v: Option<string>)
    returns (r: seq<(ParamName, string)>)
    ensures r == params + Entry(name, v)
  {
    r := params;
    if v.Some? {
      r := r + [(name, v.value)];
    }
  }

  /** `buildURL`'s sequence of `params.Add` calls, each made only when its filter is set. */
  method QueryParams(l: IssuesLoader) returns (params: seq<(ParamName, string)>)
    ensures params == Filters(l)
  {
    params := Add([], Milestone, l.milestone);
    assert params == Entry(Milestone, Value(l, Milestone));
    params := Add(params, State, Given(l.state));
    params := Add(params, Assignee, Given(l.assignee));
    params := Add(params, Creator, Given(l.creator));
    params := Add(params, Mentioned, Given(l.mentioned));
    params := Add(params, Labels, if |l.labels| > 0 then Some(Join(l.labels, ",")) else None);
    params := Add(params, Sort, Given(l.sort));
    params := Add(params, Direction, Given(l.direction));
    params := Add(params, Since, Given(l.since));
    params := Add(params, Page, InDecimal(l.page));
    params := Add(params, PerPage, InDecimal(l.perPage));
  }

  /** No filter is set. */
  predicate Unfiltered(l: IssuesLoader)
  {
    && l.milestone.None? && l.state == "" && l.assignee == "" && l.creator == ""
    && l.mentioned == "" && |l.labels| == 0 && l.sort == "" && l.direction == ""
    && l.since == "" && l.page.None? && l.perPage.None?
  }

  /** There are parameters exactly when some filter is set. */
  lemma FiltersEmpty(l: IssuesLoader)
    ensures Filters(l) == [] <==> Unfiltered(l)
  {
  }

  function IssuesBase(l: IssuesLoader): string
  {
    l.apiURL + "/repos/" + l.repo + "/issues"
  }

  /** `buildURL`: the issues endpoint, followed by "?" and the encoded parameters when there
      are any. `encode` is `url.Values.Encode`, which spells each name with `Key`, sorts and
      percent-encodes. */
  method BuildURL(l: IssuesLoader, encode: seq<(ParamName, string)> -> string) returns (url: string)
    ensures url == IssuesURL(l, encode)
  {
    var params := QueryParams(l);
    if |params| > 0 {
      url := IssuesBase(l) + "?" + encode(params);
    } else {
      url := IssuesBase(l);
    }
  }

  /** The first page's URL. */
  function IssuesURL(l: IssuesLoader, encode: seq<(ParamName, string)> -> string): (url: string)
    ensures HasPrefix(url, IssuesBase(l))
    ensures url == IssuesBase(l) <==> Unfiltered(l)
  {
    FiltersEmpty(l);
    var params := Filters(l);
    if |params| > 0 then IssuesBase(l) + "?" + encode(params) else IssuesBase(l)
  }

  const ExampleOptions: seq<IssuesOption> :=
    [WithAccessToken("test-token"), WithState("all"), WithLabels(["bug", "enhancement"]), WithMilestone("v1.0")]

  /** The loader the options of the URL example give. */
  const ExampleLoaded: IssuesLoader :=
    IssuesDefaults("owner/repo", "test-token").(state := "all", labels := ["bug", "enhancement"],
                                                milestone := Some("v1.0"))

  /** The options of the URL example set the token, the state, the labels and the milestone. */
  lemma ExampleLoader(token: string)
    ensures ApplyAllIssues(IssuesDefaults("owner/repo", token), ExampleOptions) == ExampleLoaded
  {
  }

  /** Its query holds exactly those three parameters, the labels joined by a comma. */
  lemma ExampleFilters()
    ensures Filters(ExampleLoaded) == [(Milestone, "v1.0"), (State, "all"), (Labels, "bug,enhancement")]
  {
    assert Join(["bug", "enhancement"], ",") == "bug,enhancement";
  }

  /** The loader of the URL example: state, labels and milestone set, on the public API; its
      URL is the issues endpoint followed by the three parameters. */
  lemma BuildURLExample(token: string, encode: seq<(ParamName, string)> -> string)
    ensures var l := ApplyAllIssues(IssuesDefaults("owner/repo", token), ExampleOptions);
      && Filters(l) == [(Milestone, "v1.0"), (State, "all"), (Labels, "bug,enhancement")]
      && l.apiURL == DefaultAPI && l.repo == "owner/repo"
      && IssuesURL(l, encode) == IssuesBase(l) + "?" + encode(Filters(l))
  {
    ExampleLoader(token);
    ExampleFilters();
  }

  /** A freshly built loader always filters by state, so its URL always has a query. */
  lemma DefaultsFiltered(repo: string, env: Env, opts: seq<IssuesOption>)
    requires IssuesLoaderFor(repo, env, opts).Ok?
    requires forall i :: 0 <= i < |opts| ==> !opts[i].WithState?
    ensures !Unfiltered(IssuesLoaderFor(repo, env, opts).value)
  {
    StateStays(IssuesDefaults(repo, Getenv(env, TokenVariable)), opts);
  }

  lemma {:induction false} StateStays(l: IssuesLoader, opts: seq<IssuesOption>)
    requires forall i :: 0 <= i < |opts| ==> !opts[i].WithState?
    ensures ApplyAllIssues(l, opts).state == l.state
    decreases |opts|
  {
    if opts != [] {
      assert forall i :: 0 <= i < |opts[1..]| ==> opts[1..][i] == opts[i + 1];
      StateStays(ApplyIssues(l, opts[0]), opts[1..]);
    }
  }

  // ------------------------------------------------------------------ the Link header

  const NextRel: string := "rel=\"next\""
  const Brackets: set<char> := {'<', '>'}

  /** A link `getNextURL` accepts: exactly two `;`-separated parts, the second mentioning
      `rel="next"`. */
  predicate Qualifies(link: string)
  {
    var parts := Split(TrimSpace(link), ';');
    |parts| == 2 && Contains(parts[1], NextRel)
  }

  /** The address an accepted link gives: its first part, trimmed of white space and then of
      angle brackets. */
  function LinkTarget(link: string): (r: string)
    ensures r == [] || (r[0] !in Brackets && r[|r| - 1] !in Brackets)
  {
    Trim(TrimSpace(Split(TrimSpace(link), ';')[0]), Brackets)
  }

  /** The loop of `getNextURL` over the comma-separated links: the first link that qualifies
      gives its target; when none does, there is no next page. */
  function FirstNext(links: seq<string>): (r: string)
    ensures r == [] || (r[0] !in Brackets && r[|r| - 1] !in Brackets)
    ensures var k := FirstWhere(links, Qualifies);
      && (k == -1 ==> r == "")
      && (k != -1 ==> r == LinkTarget(links[k]))
  {
    if links == [] then ""
    else if Qualifies(links[0]) then LinkTarget(links[0])
    else
      var k := FirstWhere(links[1..], Qualifies);
      assert k != -1 ==> links[1..][k] == links[k + 1];
      FirstNext(links[1..])
  }

  /** `getNextURL`: the target of the `next` link of a `Link` header, a simplified reading
      of section 3 of RFC 8288, or "" when there is none. */
  function NextURL(linkHeader: string): (r: string)
    ensures linkHeader == "" ==> r == ""
    ensures r == [] || (r[0] !in Brackets && r[|r| - 1] !in Brackets)
    ensures (forall l :: l in Split(linkHeader, ',') ==> !Qualifies(l)) ==> r == ""
    ensures linkHeader != "" ==> var links := Split(linkHeader, ',');
      var k := FirstWhere(links, Qualifies);
      k != -1 ==> r == LinkTarget(links[k])
  {
    if linkHeader == "" then "" else FirstNext(Split(linkHeader, ','))
  }

  /** `getNextURL`'s loop over the links of the header. */
  method GetNextURL(linkHeader: string) returns (url: string)
    ensures url == NextURL(linkHeader)
  {
    if linkHeader == "" {
      return "";
    }
    var links := Split(linkHeader, ',');
    assert links[0..] == links;
    for i := 0 to |links|
      invariant FirstNext(links[i..]) == FirstNext(links)
    {
      assert links[i..][1..] == links[i + 1..];
      var parts := Split(TrimSpace(links[i]), ';');
      if |parts| == 2 && Contains(parts[1], NextRel) {
        return Trim(TrimSpace(parts[0]), Brackets);
      }
    }
    return "";
  }

  /** A link written `<u>; rel="next"`: its target part, a `;` and its relation part. */
  function NextLink(u: string): string
  {
    Target(u) + [';'] + NextParam
  }

  function Target(u: string): string
  {
    ['<'] + u + ['>']
  }

  const NextParam: string := " " + NextRel

  /** A link of a target and a parameter, neither holding a `;`, splits into the two, once
      the white space around it is trimmed. */
  lemma LinkParts(t: string, p: string)
    requires t != [] && p != [] && !IsSpace(t[0]) && !IsSpace(p[|p| - 1])
    requires ';' !in t && ';' !in p
    ensures Split(TrimSpace(t + [';'] + p), ';') == [t, p]
  {
    var seg := t + [';'] + p;
    assert seg[0] == t[0] && seg[|seg| - 1] == p[|p| - 1];
    TrimFixed(seg, Spaces);
    SplitTwo(t, ';', p);
  }

  /** The `next` link's parts, as `getNextURL` splits them. */
  lemma NextLinkParts(u: string)
    requires ';' !in u
    ensures Split(TrimSpace(NextLink(u)), ';') == [Target(u), NextParam]
  {
    assert ';' !in Target(u);
    assert ';' !in NextParam;
    LinkParts(Target(u), NextParam);
  }

  /** The relation part of a `next` link names the relation. */
  lemma NextParamNames()
    ensures Contains(NextParam, NextRel)
  {
    assert NextParam[1..1 + |NextRel|] == NextRel;
    assert OccursAt(NextParam, NextRel, 1);
  }

  /** The target part has no white space at its ends. */
  lemma TargetUnspaced(u: string)
    ensures TrimSpace(Target(u)) == Target(u)
  {
    var t := Target(u);
    assert t[0] == '<' && t[|t| - 1] == '>';
    TrimFixed(t, Spaces);
  }

  /** The target part gives back the target, once trimmed of white space and brackets. */
  lemma TargetTrimmed(u: string)
    requires u != [] && u[0] !in Brackets && u[|u| - 1] !in Brackets
    ensures Trim(Target(u), Brackets) == u
  {
    var a, b := ['<'], ['>'];
    assert forall k :: 0 <= k < |a| ==> a[k] in Brackets;
    assert forall k :: 0 <= k < |b| ==> b[k] in Brackets;
    TrimPadded(a, u, b, Brackets);
  }

  /** A leading link that qualifies gives its trimmed first part. */
  lemma FirstLinkFound(seg: string, rest: string)
    requires ',' !in seg
    requires var parts := Split(TrimSpace(seg), ';'); |parts| == 2 && Contains(parts[1], NextRel)
    ensures NextURL(seg + [','] + rest) == Trim(TrimSpace(Split(TrimSpace(seg), ';')[0]), Brackets)
  {
    SplitCons(seg, ',', rest);
  }

  /** A leading `next` link is found: its target comes back, without the brackets. */
  lemma NextLinkFirst(u: string, rest: string)
    requires u != [] && u[0] !in Brackets && u[|u| - 1] !in Brackets
    requires ';' !in u && ',' !in u
    ensures NextURL(NextLink(u) + [','] + rest) == u
  {
    assert ',' !in NextLink(u);
    NextLinkParts(u);
    NextParamNames();
    FirstLinkFound(NextLink(u), rest);
    TargetUnspaced(u);
    TargetTrimmed(u);
  }

  /** A leading link that does not qualify is passed over. */
  lemma NextLinkSkipped(seg: string, rest: string)
    requires ',' !in seg && rest != ""
    requires var parts := Split(TrimSpace(seg), ';'); !(|parts| == 2 && Contains(parts[1], NextRel))
    ensures NextURL(seg + [','] + rest) == NextURL(rest)
  {
    SplitCons(seg, ',', rest);
  }

  // ------------------------------------------------------------------ loading issues

  // The prefixes of the loaders' error messages.
  const CreateFailed: string := "failed to create request: "
  const FetchIssuesFailed: string := "failed to fetch issues: "
  const APIError: string := "GitHub API error: "
  const DecodeFailed: string := "failed to decode response: "
  const FetchTreeFailed: string := "failed to fetch file tree: "
  const FetchContentFailed: string := "failed to fetch file content: "
  const FileAPIError: string := "GitHub API error for file "
  const DecodeContentFailed: string := "failed to decode file content response: "
  const Base64Failed: string := "failed to decode base64 content: "

  /** What one request of the loader comes to: the request cannot be built, the transport
      fails, or a reply with its status, its decoded body and its `Link` header. */
  datatype Answer =
    | Unbuildable(error: string)
    | Unreachable(error: string)
    | Reply(status: int, statusText: string, body: Result<seq<JsonObject>>, link: string)

  /** An explicit page or page size turns automatic paging off. */
  predicate Paged(l: IssuesLoader)
  {
    l.page.Some? || l.perPage.Some?
  }

  /** The documents one page contributes: each issue parsed, pull requests dropped unless
      the loader includes them. */
  function PageDocs(l: IssuesLoader, issues: seq<JsonObject>): (r: seq<Document>)
    ensures |r| <= |issues|
    ensures forall i :: 0 <= i < |r| ==> r[i].metadata.IssueFields?
    ensures !l.includePRs ==> forall i :: 0 <= i < |r| ==> r[i].metadata.IssueFields? && !r[i].metadata.isPullRequest
  {
    if issues == [] then []
    else
      var doc := ParseIssue(issues[0]);
      (if !l.includePRs && doc.metadata.isPullRequest then [] else [doc])
        + PageDocs(l, issues[1..])
  }

  lemma {:induction false} PageDocsAppend(l: IssuesLoader, a: seq<JsonObject>, b: seq<JsonObject>)
    ensures PageDocs(l, a + b) == PageDocs(l, a) + PageDocs(l, b)
  {
    if a == [] {
      assert a + b == b;
    } else {
      var doc := ParseIssue(a[0]);
      var h := if !l.includePRs && doc.metadata.isPullRequest then [] else [doc];
      assert (a + b)[0] == a[0];
      assert (a + b)[1..] == a[1..] + b;
      PageDocsAppend(l, a[1..], b);
      var ra, rb := PageDocs(l, a[1..]), PageDocs(l, b);
      assert PageDocs(l, a + b) == h + (ra + rb);
      assert PageDocs(l, a) == h + ra;
      assert h + (ra + rb) == (h + ra) + rb;
    }
  }

  /** With pull requests included, every issue of the page becomes a document. */
  lemma {:induction false} PageDocsAll(l: IssuesLoader, issues: seq<JsonObject>)
    requires l.includePRs
    ensures PageDocs(l, issues) == seq(|issues|, i requires 0 <= i < |issues| => ParseIssue(issues[i]))
  {
    if issues != [] {
      PageDocsAll(l, issues[1..]);
    }
  }

  /** The documents the issues loader keeps of each page. */
  function IssueDocs(l: IssuesLoader): seq<JsonObject> -> seq<Document>
  {
    issues => PageDocs(l, issues)
  }

  /** A loader without pull requests keeps none from any page. */
  lemma IssueDocsNoPulls(l: IssuesLoader)
    requires !l.includePRs
    ensures forall page :: NoPulls(IssueDocs(l)(page))
  {
  }

  /** One issue contributes its document unless it is a pull request left out. */
  lemma PageDocsOne(l: IssuesLoader, issue: JsonObject)
    ensures PageDocs(l, [issue]) == if !l.includePRs && IsPull(issue) then [] else [ParseIssue(issue)]
  {
    assert [issue][1..] == [];
  }

  /** One more issue of the page adds its document unless it is a pull request left out. */
  lemma PageDocsNext(l: IssuesLoader, issues: seq<JsonObject>, i: nat)
    requires i < |issues|
    ensures var doc := ParseIssue(issues[i]);
      PageDocs(l, issues[..i + 1])
        == PageDocs(l, issues[..i]) + (if !l.includePRs && doc.metadata.isPullRequest then [] else [doc])
  {
    assert issues[..i + 1] == issues[..i] + [issues[i]];
    PageDocsAppend(l, issues[..i], [issues[i]]);
    PageDocsOne(l, issues[i]);
  }

  /** The inner loop of `Load` over one page. */
  method KeepIssues(l: IssuesLoader, issues: seq<JsonObject>) returns (docs: seq<Document>)
    ensures docs == PageDocs(l, issues)
  {
    docs := [];
    for i := 0 to |issues|
      invariant docs == PageDocs(l, issues[..i])
    {
      PageDocsNext(l, issues, i);
      var doc := ParseIssue(issues[i]);
      if !l.includePRs && doc.metadata.isPullRequest {
        continue;
      }
      docs := docs + [doc];
    }
    assert issues[..|issues|] == issues;
  }

  const NoAnswer: string := FetchIssuesFailed + "no answer"

  /** The requests a load made and what it came to. */
  datatype Crawl = Crawl(result: Result<seq<Document>>, urls: seq<string>)

  /** The first documents in front of what the rest of the load came to. */
  function Prepend(docs: seq<Document>, rest: Result<seq<Document>>): Result<seq<Document>>
  {
    if rest.Ok? then Ok(docs + rest.value) else rest
  }

  lemma PrependTwice(docs: seq<Document>, page: seq<Document>, rest: Result<seq<Document>>)
    ensures Prepend(docs, Prepend(page, rest)) == Prepend(docs + page, rest)
  {
    if rest.Ok? {
      assert docs + (page + rest.value) == (docs + page) + rest.value;
    }
  }

  /** The pages a load fetches from `url` on, its requests getting the answers of `server`
      in turn: a failed request or a status other than 200 ends it with an error, an
      explicit page stops it after one page, and otherwise it follows the link `next` reads
      from the page's `Link` header until there is none. The load passes `NextURL` as `next`;
      the lemmas below hold for any reader. A server whose answers run out is taken to have
      failed. */
  function Crawled(l: IssuesLoader, next: string -> string, keep: seq<JsonObject> -> seq<Document>,
                   server: seq<Answer>, url: string): (c: Crawl)
    ensures url == "" <==> c.urls == []
    ensures c.urls != [] ==> c.urls[0] == url
    ensures Paged(l) ==> |c.urls| <= 1
    decreases |server|
  {
    if url == "" then Crawl(Ok([]), [])
    else if server == [] then Crawl(Err(NoAnswer), [url])
    else match server[0]
      case Unbuildable(e) => Crawl(Err(CreateFailed + e), [url])
      case Unreachable(e) => Crawl(Err(FetchIssuesFailed + e), [url])
      case Reply(status, text, body, link) =>
        if status != 200 then Crawl(Err(APIError + text), [url])
        else if body.Err? then Crawl(Err(DecodeFailed + body.error), [url])
        else
          var docs := keep(body.value);
          if Paged(l) then Crawl(Ok(docs), [url])
          else
            var rest := Crawled(l, next, keep, server[1..], next(link));
            Crawl(Prepend(docs, rest.result), [url] + rest.urls)
  }

  /** The request to `url` got a page to keep. */
  predicate PageGot(server: seq<Answer>, url: string)
  {
    url != "" && server != [] && server[0].Reply? && server[0].status == 200 && server[0].body.Ok?
  }

  /** After a page got from a server, the load goes on at its `next` link unless paging is
      explicit; any other first answer ends the load with an error after one request. */
  lemma CrawlStep(l: IssuesLoader, next: string -> string, keep: seq<JsonObject> -> seq<Document>,
                   server: seq<Answer>, url: string)
    requires url != ""
    ensures PageGot(server, url) && !Paged(l) ==>
      var rest := Crawled(l, next, keep, server[1..], next(server[0].link));
      Crawled(l, next, keep, server, url)
        == Crawl(Prepend(keep(server[0].body.value), rest.result), [url] + rest.urls)
    ensures !PageGot(server, url) ==>
      Crawled(l, next, keep, server, url).result.Err? && Crawled(l, next, keep, server, url).urls == [url]
  {
  }

  /** Each URL after the first is what `next` read from the answer to the URL before it. */
  predicate Follows(next: string -> string, server: seq<Answer>, urls: seq<string>)
    decreases |urls|
  {
    |urls| <= 1
    || (&& server != [] && server[0].Reply? && urls[1] == next(server[0].link)
        && Follows(next, server[1..], urls[1..]))
  }

  /** Each request after the first follows the `next` link of the answer before it. */
  lemma {:induction false} CrawlFollowsLinks(l: IssuesLoader, next: string -> string, keep: seq<JsonObject> -> seq<Document>,
                   server: seq<Answer>, url: string)
    ensures Follows(next, server, Crawled(l, next, keep, server, url).urls)
    decreases |server|
  {
    if url != "" {
      CrawlStep(l, next, keep, server, url);
      if PageGot(server, url) && !Paged(l) {
        var c := Crawled(l, next, keep, server, url);
        var rest := Crawled(l, next, keep, server[1..], next(server[0].link));
        CrawlFollowsLinks(l, next, keep, server[1..], next(server[0].link));
        assert c.urls[1..] == rest.urls;
      }
    }
  }

  /** A successful load got 200 and a decodable page for every request, and stopped because
      the last page had no `next` link or paging was explicit. */
  lemma {:induction false} CrawlSucceeded(l: IssuesLoader, next: string -> string, keep: seq<JsonObject> -> seq<Document>,
                   server: seq<Answer>, url: string)
    requires Crawled(l, next, keep, server, url).result.Ok?
    ensures var c := Crawled(l, next, keep, server, url);
      && |c.urls| <= |server|
      && (forall k :: 0 <= k < |c.urls| ==>
            server[k].Reply? && server[k].status == 200 && server[k].body.Ok?)
      && (c.urls != [] && !Paged(l) ==> next(server[|c.urls| - 1].link) == "")
    decreases |server|
  {
    if url != "" {
      CrawlStep(l, next, keep, server, url);
      if !Paged(l) {
        var c := Crawled(l, next, keep, server, url);
        var rest := Crawled(l, next, keep, server[1..], next(server[0].link));
        CrawlSucceeded(l, next, keep, server[1..], next(server[0].link));
        assert c.urls == [url] + rest.urls;
        forall k | 0 <= k < |c.urls|
          ensures server[k].Reply? && server[k].status == 200 && server[k].body.Ok?
        {
          if k > 0 {
            assert server[k] == server[1..][k - 1];
          }
        }
        if rest.urls != [] {
          assert server[|c.urls| - 1] == server[1..][|rest.urls| - 1];
        }
      }
    }
  }

  /** No document is a pull request. */
  predicate NoPulls(docs: seq<Document>)
  {
    forall k :: 0 <= k < |docs| ==> docs[k].metadata.IssueFields? && !docs[k].metadata.isPullRequest
  }

  /** When no page gives a pull request, no loaded document is one. */
  lemma {:induction false} CrawlWithoutPulls(l: IssuesLoader, next: string -> string,
                                             keep: seq<JsonObject> -> seq<Document>,
                                             server: seq<Answer>, url: string)
    requires forall page :: NoPulls(keep(page))
    requires Crawled(l, next, keep, server, url).result.Ok?
    ensures NoPulls(Crawled(l, next, keep, server, url).result.value)
    decreases |server|
  {
    if url != "" {
      CrawlStep(l, next, keep, server, url);
      if PageGot(server, url) && !Paged(l) {
        CrawlWithoutPulls(l, next, keep, server[1..], next(server[0].link));
      }
    }
  }

  /** A page got moves the load on to the `next` link, its documents and URL gathered. */
  lemma Advance(l: IssuesLoader, next: string -> string, keep: seq<JsonObject> -> seq<Document>,
                   server: seq<Answer>, url: string,
                docs: seq<Document>, urls: seq<string>)
    requires PageGot(server, url) && !Paged(l)
    ensures var c := Crawled(l, next, keep, server, url);
      var rest := Crawled(l, next, keep, server[1..], next(server[0].link));
      Crawl(Prepend(docs, c.result), urls + c.urls)
        == Crawl(Prepend(docs + keep(server[0].body.value), rest.result), (urls + [url]) + rest.urls)
  {
    CrawlStep(l, next, keep, server, url);
    var rest := Crawled(l, next, keep, server[1..], next(server[0].link));
    PrependTwice(docs, keep(server[0].body.value), rest.result);
    assert urls + ([url] + rest.urls) == (urls + [url]) + rest.urls;
  }

  /** The loop of `GitHubIssuesLoader.Load` that fetches pages from `start` on and gathers
      their documents, reading each next URL with `next`. It hands back the result and the URLs requested,
      in order. */
  method LoadPages(l: IssuesLoader, next: string -> string, server: seq<Answer>, start: string)
    returns (result: Result<seq<Document>>, urls: seq<string>)
    ensures Crawl(result, urls) == Crawled(l, next, IssueDocs(l), server, start)
  {
    var url := start;
    var docs: seq<Document> := [];
    urls := [];
    var i := 0;
    assert server[i..] == server;
    ghost var first := Crawled(l, next, IssueDocs(l), server, start);
    assert first.result.Ok? ==> docs + first.result.value == first.result.value;
    assert urls + first.urls == first.urls;
    while url != ""
      invariant 0 <= i <= |server|
      invariant first == Crawl(Prepend(docs, Crawled(l, next, IssueDocs(l), server[i..], url).result),
                               urls + Crawled(l, next, IssueDocs(l), server[i..], url).urls)
      decreases |server| - i
    {
      if i == |server| {
        return Err(NoAnswer), urls + [url];
      }
      match server[i]
      case Unbuildable(e) =>
        return Err(CreateFailed + e), urls + [url];
      case Unreachable(e) =>
        return Err(FetchIssuesFailed + e), urls + [url];
      case Reply(status, text, body, link) =>
        if status != 200 {
          return Err(APIError + text), urls + [url];
        }
        if body.Err? {
          return Err(DecodeFailed + body.error), urls + [url];
        }
        var page := KeepIssues(l, body.value);
        if Paged(l) {
          return Ok(docs + page), urls + [url];
        }
        Advance(l, next, IssueDocs(l), server[i..], url, docs, urls);
        assert server[i..][1..] == server[i + 1..];
        docs := docs + page;
        urls := urls + [url];
        url := next(link);
        i := i + 1;
    }
    assert docs + [] == docs;
    return Ok(docs), urls;
  }

  /** `GitHubIssuesLoader.Load`: the page loop, reading next URLs with `getNextURL`. */
  method LoadIssues(l: IssuesLoader, encode: seq<(ParamName, string)> -> string, server: seq<Answer>)
    returns (result: Result<seq<Document>>, urls: seq<string>)
    ensures Crawl(result, urls) == Crawled(l, NextURL, IssueDocs(l), server, IssuesURL(l, encode))
  {
    var start := BuildURL(l, encode);
    result, urls := LoadPages(l, NextURL, server, start);
  }

  /** A load without pull requests that succeeds returns issues only. */
  lemma IssuesWithoutPulls(l: IssuesLoader, server: seq<Answer>, url: string)
    requires !l.includePRs && Crawled(l, NextURL, IssueDocs(l), server, url).result.Ok?
    ensures NoPulls(Crawled(l, NextURL, IssueDocs(l), server, url).result.value)
  {
    IssueDocsNoPulls(l);
    CrawlWithoutPulls(l, NextURL, IssueDocs(l), server, url);
  }

  // ================================================================== the file loader

  // The keys, path pieces and messages of the file loader.
  const TreeKey: string := "tree"
  const ContentKey: string := "content"
  const TypeKey: string := "type"
  const BlobType: string := "blob"
  const ShaKey: string := "sha"
  const PathKey: string := "path"
  const InvalidTree: string := "invalid tree response format"
  const NoContentField: string := "no content field in response"
  const PathNotString: string := "interface conversion: path is not a string"
  const ReposPath: string := "/repos/"
  const ContentsPath: string := "/contents/"
  const RefQuery: string := "?ref="
  const BlobPath: string := "/blob/"

  /** `GitHubFileLoader`: the repository, the token, the API root, the branch and the
      optional path filter. */
  datatype FileLoader = FileLoader(
    repo: string,
    accessToken: string,
    apiURL: string,
    branch: string,
    filter: Option<string -> bool>)

  datatype FileOption =
    | WithFileAccessToken(token: string)
    | WithBranch(branch: string)
    | WithFileFilter(filter: string -> bool)

  function ApplyFiles(l: FileLoader, opt: FileOption): FileLoader
  {
    match opt
    case WithFileAccessToken(t) => l.(accessToken := t)
    case WithBranch(b) => l.(branch := b)
    case WithFileFilter(f) => l.(filter := Some(f))
  }

  function ApplyAllFiles(l: FileLoader, opts: seq<FileOption>): (r: FileLoader)
    ensures r.repo == l.repo && r.apiURL == l.apiURL
    decreases |opts|
  {
    if opts == [] then l else ApplyAllFiles(ApplyFiles(l, opts[0]), opts[1..])
  }

  function FileDefaults(repo: string, token: string): FileLoader
  {
    FileLoader(repo, token, DefaultAPI, "main", None)
  }

  /** `NewGitHubFileLoader` as written: like the issues loader, the token is checked before
      the options are applied. */
  function FileLoaderFor(repo: string, env: Env, opts: seq<FileOption>): (r: Result<FileLoader>)
    ensures repo == "" ==> r == Err(EmptyRepository)
    ensures repo != "" && Getenv(env, TokenVariable) == "" ==> r == Err(TokenRequired)
    ensures r.Ok? ==> r.value.repo == repo && r.value.apiURL == DefaultAPI
  {
    if repo == "" then Err(EmptyRepository)
    else if Getenv(env, TokenVariable) == "" then Err(TokenRequired)
    else Ok(ApplyAllFiles(FileDefaults(repo, Getenv(env, TokenVariable)), opts))
  }

  method NewFileLoader(repo: string, env: Env, opts: seq<FileOption>) returns (r: Result<FileLoader>)
    ensures r == FileLoaderFor(repo, env, opts)
  {
    if repo == "" {
      return Err(EmptyRepository);
    }
    var loader := FileDefaults(repo, Getenv(env, TokenVariable));
    if loader.accessToken == "" {
      return Err(TokenRequired);
    }
    for i := 0 to |opts|
      invariant ApplyAllFiles(loader, opts[i..]) == ApplyAllFiles(FileDefaults(repo, Getenv(env, TokenVariable)), opts)
    {
      assert opts[i..][1..] == opts[i + 1..];
      loader := ApplyFiles(loader, opts[i]);
    }
    return Ok(loader);
  }

  lemma FileTokenOptionIgnored(repo: string, env: Env, token: string)
    requires repo != "" && Getenv(env, TokenVariable) == ""
    ensures FileLoaderFor(repo, env, [WithFileAccessToken(token)]) == Err(TokenRequired)
  {
  }

  /** The evidently intended file-loader constructor: options first, then the token check. */
  function FileLoaderIntended(repo: string, env: Env, opts: seq<FileOption>): (r: Result<FileLoader>)
    ensures repo == "" ==> r == Err(EmptyRepository)
    ensures r.Ok? ==> r.value.repo == repo && r.value.accessToken != ""
  {
    if repo == "" then Err(EmptyRepository)
    else
      var l := ApplyAllFiles(FileDefaults(repo, Getenv(env, TokenVariable)), opts);
      if l.accessToken == "" then Err(TokenRequired) else Ok(l)
  }

  lemma FileTokenOptionHonoured(repo: string, env: Env, token: string)
    requires repo != "" && token != ""
    ensures FileLoaderIntended(repo, env, [WithFileAccessToken(token)]) == Ok(FileDefaults(repo, token))
  {
    var l := FileDefaults(repo, Getenv(env, TokenVariable));
    assert ApplyAllFiles(l, [WithFileAccessToken(token)]) == ApplyAllFiles(ApplyFiles(l, WithFileAccessToken(token)), []);
  }

  // ------------------------------------------------------------------ the tree and the contents

  /** What GitHub answers for the recursive tree of the branch, or for one file's contents. */
  datatype ObjectAnswer =
    | NoRequest(error: string)
    | NoTransport(error: string)
    | ObjectReply(status: int, statusText: string, body: Result<JsonObject>)

  /** The objects among the tree's items, in order; other items are skipped. */
  function Objects(items: seq<Json>): (r: seq<JsonObject>)
    ensures |r| <= |items|
  {
    if items == [] then []
    else (if items[0].Obj? then [items[0].fields] else []) + Objects(items[1..])
  }

  lemma {:induction false} ObjectsAppend(a: seq<Json>, b: seq<Json>)
    ensures Objects(a + b) == Objects(a) + Objects(b)
  {
    if a == [] {
      assert a + b == b;
    } else {
      assert (a + b)[0] == a[0];
      assert (a + b)[1..] == a[1..] + b;
      ObjectsAppend(a[1..], b);
    }
  }

  /** Every item an object: all of them are kept. */
  lemma {:induction false} ObjectsAll(items: seq<Json>)
    requires forall i :: 0 <= i < |items| ==> items[i].Obj?
    ensures Objects(items) == seq(|items|, i requires 0 <= i < |items| => items[i].fields)
  {
    if items != [] {
      ObjectsAll(items[1..]);
    }
  }

  /** The loop of `getFilePaths` over the tree's items. */
  method TreeObjects(items: seq<Json>) returns (files: seq<JsonObject>)
    ensures files == Objects(items)
  {
    files := [];
    for i := 0 to |items|
      invariant files == Objects(items[..i])
    {
      assert items[..i + 1] == items[..i] + [items[i]];
      ObjectsAppend(items[..i], [items[i]]);
      if items[i].Obj? {
        files := files + [items[i].fields];
      }
    }
    assert items[..|items|] == items;
  }

  /** `getFilePaths` once GitHub answered: the objects of the `tree` array. */
  function FilePaths(a: ObjectAnswer): (r: Result<seq<JsonObject>>)
    ensures r.Ok? <==> (&& a.ObjectReply? && a.status == 200 && a.body.Ok?
                        && TreeKey in a.body.value && a.body.value[TreeKey].Array?)
    ensures r.Ok? ==> r.value == Objects(a.body.value[TreeKey].items)
  {
    match a
    case NoRequest(e) => Err(CreateFailed + e)
    case NoTransport(e) => Err(FetchTreeFailed + e)
    case ObjectReply(status, text, body) =>
      if status != 200 then Err(APIError + text)
      else if body.Err? then Err(DecodeFailed + body.error)
      else if !(TreeKey in body.value && body.value[TreeKey].Array?) then Err(InvalidTree)
      else Ok(Objects(body.value[TreeKey].items))
  }

  /** The URL `getFileContent` asks, reading from the loader's branch when one is set. */
  function ContentURL(l: FileLoader, path: string): string
  {
    l.apiURL + ReposPath + l.repo + ContentsPath + path + (if l.branch != "" then RefQuery + l.branch else "")
  }

  /** The newlines GitHub wraps base64 text with, removed. */
  function Unwrapped(content: string): (r: string)
    ensures '\n' !in r
    ensures '\n' !in content ==> r == content
  {
    NoNewline(content);
    if '\n' !in content then
      assert !Contains(content, "\n") by {
        if Contains(content, "\n") {
          OccursAtChar(content, '\n', IndexOf(content, "\n"));
        }
      }
      ReplaceAllUnchanged(content, "\n", "");
      ReplaceAll(content, "\n", "")
    else
      ReplaceAll(content, "\n", "")
  }

  lemma {:induction false} NoNewline(s: string)
    ensures '\n' !in ReplaceAll(s, "\n", "")
    decreases |s|
  {
    match Cut(s, "\n")
    case None =>
      forall j | 0 <= j < |s| ensures s[j] != '\n' {
        OccursAtChar(s, '\n', j);
      }
    case Some((a, b)) =>
      forall j | 0 <= j < |a| ensures a[j] != '\n' {
        OccursAtChar(s, '\n', j);
        assert s[j] == a[j];
      }
      NoNewline(b);
      assert ReplaceAll(s, "\n", "") == a + "" + ReplaceAll(b, "\n", "");
  }

  /** `getFileContent` once GitHub answered: the `content` text, unwrapped and base64
      decoded by `decode`. */
  function FileContent(path: string, a: ObjectAnswer, decode: string -> Result<string>): (r: Result<string>)
    ensures r.Ok? ==> a.ObjectReply? && a.status == 200 && a.body.Ok? && ContentKey in a.body.value
                      && a.body.value[ContentKey].Str?
                      && r == decode(Unwrapped(a.body.value[ContentKey].s))
  {
    match a
    case NoRequest(e) => Err(CreateFailed + e)
    case NoTransport(e) => Err(FetchContentFailed + e)
    case ObjectReply(status, text, body) =>
      if status != 200 then Err(FileAPIError + path + ": " + text)
      else if body.Err? then Err(DecodeContentFailed + body.error)
      else if !(ContentKey in body.value && body.value[ContentKey].Str?) then Err(NoContentField)
      else
        match decode(Unwrapped(body.value[ContentKey].s))
        case Err(e) => Err(Base64Failed + e)
        case Ok(text) => Ok(text)
  }

  // ------------------------------------------------------------------ loading files

  /** A file load: the documents, an error, or Go's panic on a tree entry without a path. */
  datatype Loaded = Loaded(docs: seq<Document>) | LoadFailed(error: string) | LoadPanicked(reason: string)

  /** A tree entry of type `blob`. */
  predicate IsBlob(file: JsonObject)
  {
    TypeKey in file && file[TypeKey] == Str(BlobType)
  }

  /** The loader's filter lets `path` through. */
  predicate Passes(l: FileLoader, path: string)
  {
    l.filter.None? || l.filter.value(path)
  }

  function Source(l: FileLoader, path: string): string
  {
    l.apiURL + "/" + l.repo + BlobPath + l.branch + "/" + path
  }

  function FileDocument(l: FileLoader, file: JsonObject, path: string, content: string): Document
  {
    Document(content, FileFields(path, if ShaKey in file then file[ShaKey] else Null, Source(l, path)))
  }

  /** The documents of the tree's entries: blobs only, whose path passes the filter and
      whose content could be fetched and is not empty. */
  function FileDocs(l: FileLoader, files: seq<JsonObject>, contents: string -> ObjectAnswer,
                    decode: string -> Result<string>): (r: Loaded)
    ensures !r.LoadFailed?
  {
    if files == [] then Loaded([])
    else
      var file := files[0];
      var rest := FileDocs(l, files[1..], contents, decode);
      if !IsBlob(file) then rest
      else if !(PathKey in file && file[PathKey].Str?) then LoadPanicked(PathNotString)
      else
        var path := file[PathKey].s;
        if !Passes(l, path) then rest
        else
          var content := FileContent(path, contents(ContentURL(l, path)), decode);
          if content.Err? || content.value == "" then rest
          else if rest.Loaded? then Loaded([FileDocument(l, file, path, content.value)] + rest.docs)
          else rest
  }

  /** Every loaded file document is a blob that passed the filter, with the content
      fetched for its path, never empty, and with its source URL. */
  lemma {:induction false} FileDocsKept(l: FileLoader, files: seq<JsonObject>, contents: string -> ObjectAnswer,
                                        decode: string -> Result<string>)
    requires FileDocs(l, files, contents, decode).Loaded?
    ensures var docs := FileDocs(l, files, contents, decode).docs;
      forall k :: 0 <= k < |docs| ==>
        && docs[k].content != ""
        && docs[k].metadata.FileFields?
        && var path := docs[k].metadata.path;
           && Passes(l, path)
           && FileContent(path, contents(ContentURL(l, path)), decode) == Ok(docs[k].content)
           && docs[k].metadata.source == Source(l, path)
    decreases |files|
  {
    if files != [] {
      FileDocsKept(l, files[1..], contents, decode);
    }
  }

  /** Entries that are not blobs never matter. */
  lemma {:induction false} FileDocsSkipsNonBlobs(l: FileLoader, files: seq<JsonObject>,
                                                 contents: string -> ObjectAnswer, decode: string -> Result<string>)
    requires forall k :: 0 <= k < |files| ==> !IsBlob(files[k])
    ensures FileDocs(l, files, contents, decode) == Loaded([])
    decreases |files|
  {
    if files != [] {
      FileDocsSkipsNonBlobs(l, files[1..], contents, decode);
    }
  }

  /** One turn of `KeepFiles`'s loop: the entry at `i` adds its document, is skipped, or
      stops the load with a panic. */
  lemma FileDocsTurn(l: FileLoader, files: seq<JsonObject>, contents: string -> ObjectAnswer,
                     decode: string -> Result<string>, i: nat, docs: seq<Document>)
    requires i < |files|
    requires FileDocs(l, files, contents, decode) == Joined(docs, FileDocs(l, files[i..], contents, decode))
    ensures var file := files[i];
      var all := FileDocs(l, files, contents, decode);
      var next := FileDocs(l, files[i + 1..], contents, decode);
      if !IsBlob(file) then all == Joined(docs, next)
      else if !(PathKey in file && file[PathKey].Str?) then all == LoadPanicked(PathNotString)
      else
        var path := file[PathKey].s;
        var content := FileContent(path, contents(ContentURL(l, path)), decode);
        if !Passes(l, path) || content.Err? || content.value == "" then all == Joined(docs, next)
        else all == Joined(docs + [FileDocument(l, file, path, content.value)], next)
  {
    assert files[i..][0] == files[i];
    assert files[i..][1..] == files[i + 1..];
  }

  /** The loop of `GitHubFileLoader.Load`, over the objects of the tree. */
  method KeepFiles(l: FileLoader, files: seq<JsonObject>, contents: string -> ObjectAnswer,
                   decode: string -> Result<string>) returns (r: Loaded)
    ensures r == FileDocs(l, files, contents, decode)
  {
    var docs: seq<Document> := [];
    for i := 0 to |files|
      invariant FileDocs(l, files, contents, decode) == Joined(docs, FileDocs(l, files[i..], contents, decode))
    {
      var file := files[i];
      FileDocsTurn(l, files, contents, decode, i, docs);
      if !IsBlob(file) {
        continue;
      }
      if !(PathKey in file && file[PathKey].Str?) {
        return LoadPanicked(PathNotString);
      }
      var path := file[PathKey].s;
      if !Passes(l, path) {
        continue;
      }
      var content := FileContent(path, contents(ContentURL(l, path)), decode);
      if content.Err? || content.value == "" {
        continue;
      }
      docs := docs + [FileDocument(l, file, path, content.value)];
    }
    return Loaded(docs);
  }

  /** Documents gathered so far in front of what the remaining entries give. */
  function Joined(docs: seq<Document>, rest: Loaded): Loaded
  {
    if rest.Loaded? then Loaded(docs + rest.docs) else rest
  }

  /** `GitHubFileLoader.Load`: the tree of the branch, then its files. */
  method LoadFiles(l: FileLoader, tree: ObjectAnswer, contents: string -> ObjectAnswer,
                   decode: string -> Result<string>) returns (r: Loaded)
    ensures FilePaths(tree).Err? ==> r == LoadFailed(FilePaths(tree).error)
    ensures FilePaths(tree).Ok? ==> r == FileDocs(l, FilePaths(tree).value, contents, decode)
  {
    match tree
    case NoRequest(e) =>
      return LoadFailed(CreateFailed + e);
    case NoTransport(e) =>
      return LoadFailed(FetchTreeFailed + e);
    case ObjectReply(status, text, body) =>
      if status != 200 {
        return LoadFailed(APIError + text);
      }
      if body.Err? {
        return LoadFailed(DecodeFailed + body.error);
      }
      if !(TreeKey in body.value && body.value[TreeKey].Array?) {
        return LoadFailed(InvalidTree);
      }
      var files := TreeObjects(body.value[TreeKey].items);
      r := KeepFiles(l, files, contents, decode);
  }
}
