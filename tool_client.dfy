/** The GitHub client every tool of tools/github shares, what GitHub answers it, and the base
    every tool embeds: the client and an optional callbacks handler told about each call. */
module ToolClient {
  import opened Results
  import opened Text
  import opened Environment

  // ================================================================== the client

  const TokenVar: string := "GITHUB_TOKEN"
  const RepositoryVar: string := "GITHUB_REPOSITORY"

  const TokenRequired: string := "GITHUB_TOKEN environment variable is required"
  const RepositoryRequired: string :=
    "GITHUB_REPOSITORY environment variable is required (format: owner/repo)"
  const BadRepository: string := "GITHUB_REPOSITORY must be in format 'owner/repo', got: "

  /** An authenticated client for one repository; `Owner()` and `Repo()` read the last two
      fields. */
  datatype Client = Client(token: string, owner: string, repo: string)

  /** `NewClient`: the token must be set, then the repository, which must be exactly two
      parts around one "/" (either part may be empty). */
  function NewClient(env: Env): (r: Result<Client>)
    ensures Getenv(env, TokenVar) == "" ==> r == Err(TokenRequired)
    ensures Getenv(env, TokenVar) != "" && Getenv(env, RepositoryVar) == "" ==> r == Err(RepositoryRequired)
    ensures r.Err? && Getenv(env, TokenVar) != "" && Getenv(env, RepositoryVar) != "" ==>
      r.error == BadRepository + Getenv(env, RepositoryVar)
    ensures r.Ok? ==>
      && r.value.token == Getenv(env, TokenVar)
      && r.value.owner + "/" + r.value.repo == Getenv(env, RepositoryVar)
      && '/' !in r.value.owner && '/' !in r.value.repo
  {
    var token := Getenv(env, TokenVar);
    var repository := Getenv(env, RepositoryVar);
    if token == "" then Err(TokenRequired)
    else if repository == "" then Err(RepositoryRequired)
    else
      var parts := Split(repository, '/');
      if |parts| != 2 then Err(BadRepository + repository)
      else
        JoinSplit(repository, '/');
        assert Join(parts, "/") == parts[0] + "/" + parts[1];
        Ok(Client(token, parts[0], parts[1]))
  }

  /** A set token and a repository of two slash-free parts around one "/" give the client
      for exactly those parts: the converse of `NewClient`'s success condition. */
  lemma NewClientAccepts(env: Env, owner: string, repo: string)
    requires Getenv(env, TokenVar) != ""
    requires Getenv(env, RepositoryVar) == owner + "/" + repo
    requires '/' !in owner && '/' !in repo
    ensures NewClient(env) == Ok(Client(Getenv(env, TokenVar), owner, repo))
  {
    SplitTwo(owner, '/', repo);
  }

  /** "a/" names owner "a" and an empty repository, and is accepted. */
  lemma EmptyPartAccepted(env: Env)
    requires Getenv(env, TokenVar) != "" && Getenv(env, RepositoryVar) == "a/"
    ensures NewClient(env) == Ok(Client(Getenv(env, TokenVar), "a", ""))
  {
    assert "a/" == "a" + "/" + "";
    NewClientAccepts(env, "a", "");
  }

  // ================================================================== what GitHub answers

  /** `GetContents` for one path: an error, a file (whose content may fail to decode), or a
      directory's entries. */
  datatype Contents = Unavailable(error: string) | File(content: Result<string>, sha: string) | Directory(items: seq<Item>)

  /** A directory entry; `kind` is GitHub's type: "file", "dir", "symlink", "submodule". */
  datatype Item = Item(name: string, kind: string)

  /** An issue or pull request as the issue endpoints describe it. `created` is the creation
      time already formatted. */
  datatype IssueInfo = IssueInfo(number: int, title: string, state: string, author: string,
                                 created: string, body: string, isPull: bool)

  datatype Comment = Comment(author: string, created: string, body: string)

  datatype PullInfo = PullInfo(number: int, title: string, state: string, author: string,
                               created: string, base: string, head: string, body: string)

  datatype Commit = Commit(sha: string, message: string)

  datatype PullFile = PullFile(filename: string, status: string, additions: int, deletions: int,
                               changes: int, patch: string)

  /** A code search hit: its path, the repository's full name and the matched fragments. */
  datatype CodeHit = CodeHit(path: string, repository: string, fragments: seq<string>)

  datatype Found<T> = Found(total: int, items: seq<T>)

  /** Every request that changes something on GitHub. */
  datatype Write =
    | NewFile(path: string, message: string, content: string)
    | FileUpdate(path: string, message: string, content: string, sha: string)
    | FileDeletion(path: string, message: string, sha: string)
    | NewPull(title: string, body: string, head: string, base: string)
    | NewComment(issue: int, body: string)

  /** What GitHub assigned to a created comment or pull request: its number and title. */
  datatype Created = Created(number: int, title: string)

  /** GitHub as the client sees it, for the client's repository. */
  datatype Service = Service(
    contents: string -> Contents,
    openIssues: Result<seq<IssueInfo>>,
    issue: int -> Result<IssueInfo>,
    comments: int -> Result<seq<Comment>>,
    openPulls: Result<seq<PullInfo>>,
    pull: int -> Result<PullInfo>,
    commits: int -> Result<seq<Commit>>,
    pullFiles: int -> Result<seq<PullFile>>,
    defaultBranch: Result<string>,
    branches: Result<seq<string>>,
    searchCode: string -> Result<Found<CodeHit>>,
    searchIssues: string -> Result<Found<IssueInfo>>,
    send: Write -> Result<Created>)

  // ================================================================== what a tool answers

  /** The error a tool hands to the callbacks handler: a message, or the error
      `strconv.Atoi` gives for a text that is not a number. */
  datatype Failure = Says(message: string) | NotANumber(text: string)

  /** A tool call's end: its output, or the error it returns together with the error it
      reported, or a run-time panic. */
  datatype Answer = Answered(text: string) | Refused(reported: Failure, error: string) | Panicked(reason: string)

  /** An answer with the writes sent to GitHub on the way. */
  datatype Reply = Reply(answer: Answer, sent: seq<Write>)

  /** A refusal that reports its own message. */
  function Refuse(message: string): Answer
  {
    Refused(Says(message), message)
  }

  /** Send one write: `failed` followed by GitHub's error when it is refused, `done` when it
      succeeds. */
  function Send(gh: Service, w: Write, failed: string, done: string): (r: Reply)
    ensures r.sent == [w]
    ensures r.answer.Answered? <==> gh.send(w).Ok?
    ensures gh.send(w).Ok? ==> r.answer.text == done
    ensures gh.send(w).Err? ==> r.answer == Refused(Says(gh.send(w).error), failed + gh.send(w).error)
  {
    match gh.send(w)
    case Err(e) => Reply(Refused(Says(e), failed + e), [w])
    case Ok(_) => Reply(Answered(done), [w])
  }

  // ================================================================== callbacks

  /** The calls a callbacks handler receives. */
  datatype Event = ToolStart(input: string) | ToolEnd(output: string) | ToolError(error: Failure)

  /** A callbacks handler, known by its identity. */
  type Handler = nat

  /** What reaches the handler when a helper is called: the event, or nothing without one. */
  function Forwarded(handler: Option<Handler>, e: Event): (r: seq<(Handler, Event)>)
    ensures handler.None? <==> r == []
    ensures handler.Some? ==> r == [(handler.value, e)]
  {
    if handler.None? then [] else [(handler.value, e)]
  }

  /** What reaches the handler when the helpers are called for `events` in turn. */
  function Delivered(handler: Option<Handler>, events: seq<Event>): (r: seq<(Handler, Event)>)
    ensures handler.None? ==> r == []
    ensures handler.Some? ==> |r| == |events| && forall i :: 0 <= i < |r| ==> r[i] == (handler.value, events[i])
  {
    if events == [] then [] else Forwarded(handler, events[0]) + Delivered(handler, events[1..])
  }

  /** The events of one call: its start, then its end or its error; a panic ends nothing. */
  function CallEvents(input: string, answer: Answer): seq<Event>
  {
    [ToolStart(input)] + match answer
      case Answered(text) => [ToolEnd(text)]
      case Refused(f, _) => [ToolError(f)]
      case Panicked(_) => []
  }

  /** `BaseTool`: the client and the callbacks handler. `delivered` records, in order, every
      call made on a handler through this tool, with the handler that received it. */
  class BaseTool {
    const client: Client
    var callbacksHandler: Option<Handler>
    var delivered: seq<(Handler, Event)>

    constructor (client: Client)
      ensures this.client == client && callbacksHandler == None && delivered == []
    {
      this.client := client;
      callbacksHandler := None;
      delivered := [];
    }

    /** `SetCallbacksHandler`: replace the handler. */
    method SetCallbacksHandler(handler: Option<Handler>)
      modifies this
      ensures callbacksHandler == handler && delivered == old(delivered)
    {
      callbacksHandler := handler;
    }

    /** `handleToolStart`, `handleToolEnd` and `handleToolError`: forward to the handler
        when there is one. */
    method Handle(e: Event)
      modifies this
      ensures callbacksHandler == old(callbacksHandler)
      ensures delivered == old(delivered) + Forwarded(callbacksHandler, e)
    {
      if callbacksHandler.Some? {
        delivered := delivered + [(callbacksHandler.value, e)];
      }
    }

    /** The frame of every tool's `Call`: report the start, work out the answer, report the
        end or the error. Only a set handler receives the events. */
    method Invoke(input: string, answer: Answer) returns (r: Answer)
      modifies this
      ensures r == answer && callbacksHandler == old(callbacksHandler)
      ensures delivered == old(delivered) + Delivered(callbacksHandler, CallEvents(input, answer))
    {
      Handle(ToolStart(input));
      ghost var events := CallEvents(input, answer);
      assert events[1..] == CallEvents(input, answer)[1..];
      match answer {
        case Answered(text) =>
          Handle(ToolEnd(text));
          assert events[1..][1..] == [];
        case Refused(f, _) =>
          Handle(ToolError(f));
          assert events[1..][1..] == [];
        case Panicked(_) =>
          assert events[1..] == [];
      }
      r := answer;
    }
  }
}
