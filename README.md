# GitHub glue of instructured-llm, modelled in Dafny

This project models the GitHub part of the instructured-llm Go library:

- the `GitHubAPIWrapper` of `util/github/wrapper.go`, which an agent drives through `Run(mode, query)`;
- the agent toolkit of `agents/github_toolkit.go`, which wraps every `Run` mode as a named tool and tidies the tool input first;
- the two document loaders of `documentloaders/github.go`: issues, crawled page by page along `Link` headers, and repository files from the git tree;
- the stand-alone tools of `tools/github/`: their client, their callback plumbing, and the toolkit that assembles them.

GitHub and the HTTP server are never called. Each remote answer becomes a value or a function of the request:

- `GitHubWrapper.Remote` for the wrapper;
- `ToolClient.Service` for the tools;
- a finite script of answers (`DocumentLoaders.Answer`) for the issue crawl.

Every write the source would send (a new file, a comment, a pull request, a branch) is returned as a list of requests. The contracts can then say what is sent, not only what is answered.

Go panics (a slice past its end, `sha[:8]` on a short hash, the nil file of a directory) are explicit outcomes (`Panic`, `Panicked`). They are not preconditions.

Modules, one per source file plus helpers:

| file | module | models |
|---|---|---|
| `results.dfy` | `Results` | `Option`, `Result` |
| `text.dfy` | `Text` | the subset of Go's `strings` package the source uses, on `seq<char>` |
| `decimal.dfy` | `Decimal` | `strconv.Atoi` / `strconv.Itoa` within the 64-bit range |
| `environment.dfy` | `Environment` | the process environment as a map |
| `listing.dfy` | `Listing` | the text a `strings.Builder` loop appends, one piece per element, and how it splits back into lines |
| `lists.dfy` | `Lists` | first index satisfying a predicate |
| `wrapper.dfy` | `GitHubWrapper` | `util/github/wrapper.go` |
| `loaders.dfy` | `DocumentLoaders` | `documentloaders/github.go` |
| `agent_toolkit.dfy` | `AgentToolkit` | `agents/github_toolkit.go` |
| `tool_client.dfy` | `ToolClient` | `tools/github/client.go` |
| `tool_files.dfy` | `FileTools` | `tools/github/files.go` |
| `tool_issues.dfy` | `IssueTools` | `tools/github/issues.go` |
| `tool_pulls.dfy` | `PullTools` | `tools/github/pullrequests.go` |
| `tool_repository.dfy` | `RepositoryTools` | `tools/github/repository.go` |
| `toolkit.dfy` | `GitHubToolkit` | `tools/github/toolkit.go` and the tools' `Call` dispatch |

## Model

| member | source | states |
|---|---|---|
| GitHubWrapper.Effective | util/github/wrapper.go:40-54 | each of repository, app id and private key comes from the configuration when set there, and from its environment variable otherwise |
| GitHubWrapper.Configure | util/github/wrapper.go:40-109 | the wrapper is built exactly when all three settings are non-empty, the repository splits into two parts at `/` and the repository lookup succeeds; owner and name then rejoin to the repository; empty base and active branches default to the repository's default branch |
| GitHubWrapper.ConfigureErrors | util/github/wrapper.go:56-70 | the missing settings are reported in the order repository, app id, private key, and a repository without exactly one `/` is reported with the expected format |
| GitHubWrapper.ConfigureOwnerRepo | util/github/wrapper.go:66-108 | a well-formed `owner/repo` configuration yields that owner and name, with both branches set to the default branch |
| GitHubWrapper.ParseIssues | util/github/wrapper.go:127-140 | one parsed issue per fetched issue, in order |
| GitHubWrapper.ParsePullRequests | util/github/wrapper.go:143-154 | one parsed pull request per fetched one, in order |
| GitHubWrapper.ParsedPullCounts | util/github/wrapper.go:149-150 | the commit and comment counts written with `strconv.Itoa` read back as the same numbers |
| GitHubWrapper.IssuesOnly | util/github/wrapper.go:166-172 | the filtering loop keeps exactly the entries that are not pull requests, in their order and with their repetitions (the in-order filter `Listing.Kept`) |
| Listing.KeptMembers | util/github/wrapper.go:166-172 | an entry survives the filter exactly when it was fetched and is not a pull request |
| Listing.KeptAppend | util/github/wrapper.go:166-172 | filtering two pages in turn is filtering their concatenation, so order and repetitions are kept |
| GitHubWrapper.GetIssues | util/github/wrapper.go:157-181 | a fetch error is reported as an error; the answer is "No open issues available" exactly when every fetched entry is a pull request; otherwise "Found N issues:" with N the number of real issues, then the `%+v` list of their parsed records in order |
| GitHubWrapper.ListOpenPullRequests | util/github/wrapper.go:184-200 | a fetch error is reported as an error; the answer is "No open pull requests available" exactly when the page is empty; otherwise "Found N pull requests:" with N the page size, then the `%+v` list of the parsed records in order |
| GitHubWrapper.Files | util/github/wrapper.go:320-343 | the file list fails exactly when the top directory cannot be read; a sub-directory that cannot be read is skipped |
| GitHubWrapper.FilesListed | util/github/wrapper.go:320-343 | a path is in the recursive file list exactly when it is a file somewhere in the listed tree |
| GitHubWrapper.FilesOfHolds | util/github/wrapper.go:328-341 | a path is among the files of a list of entries exactly when one of the entries holds it |
| GitHubWrapper.EntryFilesHolds | util/github/wrapper.go:330-339 | a path is among the files of one entry exactly when that entry is that file or a directory holding it |
| GitHubWrapper.ListFiles | util/github/wrapper.go:320-343 | the recursive listing loop computes the file list |
| GitHubWrapper.ListFilesInMainBranch | util/github/wrapper.go:203-214 | the call fails exactly when the base branch's tree cannot be read; no files gives "No files found in the main branch"; otherwise the answer is the counting header "Found N files in the main branch:" followed by the files, one per line |
| GitHubWrapper.MainListingLines | util/github/wrapper.go:203-214 | with paths free of line breaks, the main-branch listing splits back into "Found N files in the main branch:" and exactly the files, in order |
| GitHubWrapper.ListFilesInBotBranch | util/github/wrapper.go:296-307 | never an error; the answer is "Error: " and the walk's error exactly when the active branch's tree cannot be read; no files gives the "No files found in branch" answer; otherwise it splits back into the counting header and exactly the files |
| GitHubWrapper.BotListing | util/github/wrapper.go:302-306 | the answer for a readable active branch: the empty-branch text, or the counting header and the files, one per line |
| GitHubWrapper.CountedLines | util/github/wrapper.go:213 | a header counting the items, then one item per line, splits back into the header and the items when none holds a line break |
| GitHubWrapper.GetFilesFromDirectory | util/github/wrapper.go:310-317 | never an error; a non-empty listing whose paths have no line break splits back into exactly those paths |
| GitHubWrapper.ListBranchesInRepo | util/github/wrapper.go:242-258 | the call fails exactly when the branch list cannot be fetched; no branches gives "No branches found in the repository"; otherwise the answer is the counting header followed by the names, one per line |
| GitHubWrapper.BranchListingLines | util/github/wrapper.go:242-258 | with names free of line breaks, the branch listing splits back into "Found N branches in the repository:" and exactly the names, in order |
| GitHubWrapper.ReadFile | util/github/wrapper.go:492-506 | never an error; it panics exactly on a directory, and a readable file answers its content |
| GitHubWrapper.Take | util/github/wrapper.go:654-667 | the first `n` items, clipped to the list, none for a non-positive `n` |
| GitHubWrapper.SearchIssuesAndPRs | util/github/wrapper.go:638-670 | never an error; with results whose lines have no break, the answer has at most six lines (a header and five hits) |
| GitHubWrapper.SearchCode | util/github/wrapper.go:673-712 | never an error; a failed search answers "Search failed: " and the error, no hits "0 results found."; it panics exactly when one of the shown hits is a directory; otherwise the "Showing top k of N results:" header and the hits' blocks, joined by line breaks |
| GitHubWrapper.CodeBlocks | util/github/wrapper.go:697-709 | no result exactly when one of the paths is a directory; otherwise block `k` is "Filepath: `p`", "File contents: " with the file read from the active branch, and "<END OF FILE>", for the `k`-th path |
| GitHubWrapper.GetLatestRelease | util/github/wrapper.go:715-722 | never an error; the answer opens with the failure text exactly when the fetch fails, and otherwise is "Latest title: ", the release's name, tag and body |
| GitHubWrapper.GetReleases | util/github/wrapper.go:725-744 | never an error; the failure text appears exactly when the fetch fails; no releases gives "No releases found."; otherwise, without line breaks in the fields, the answer splits back into "Top N results:" and one "Title: …, Tag: …, Body: …" line per release, in order |
| GitHubWrapper.ReleaseListing | util/github/wrapper.go:736-743 | the numbered header and one line per release, splitting back into exactly those lines |
| GitHubWrapper.ReleaseLinesUnbroken | util/github/wrapper.go:739-741 | a release line holds no line break when none of the release's fields does |
| GitHubWrapper.GetRelease | util/github/wrapper.go:747-754 | never an error; the failure text appears exactly when the fetch fails, and otherwise the answer is "Release: ", the release's name, tag and body |
| GitHubWrapper.CreatePullRequest | util/github/wrapper.go:434-463 | nothing is sent on the protected base branch; otherwise one pull request is sent from the active branch to the base branch, titled with the query's first line |
| GitHubWrapper.PullRequestParts | util/github/wrapper.go:439-456 | for a title line, a second line and a body, the pull request carries that title and body; the second line is dropped |
| GitHubWrapper.PullRequestTitleOnly | util/github/wrapper.go:439-456 | a one-line query sends a pull request with that title and an empty body |
| GitHubWrapper.CommentOnIssue | util/github/wrapper.go:466-489 | without a blank line the comment is refused; a sent comment goes to the number before the first blank line, with the text after it |
| GitHubWrapper.CommentParts | util/github/wrapper.go:466-489 | a number, a blank line and a text comment that text on that issue |
| GitHubWrapper.CreateFile | util/github/wrapper.go:509-543 | nothing is sent on the protected branch; a sent file is missing beforehand, its path is the first line and its content the rest, on the active branch |
| GitHubWrapper.DeleteFile | util/github/wrapper.go:609-635 | nothing is sent on the protected branch; a sent deletion is of the queried path on the active branch; it panics exactly on a directory |
| GitHubWrapper.ExtractEdit | util/github/wrapper.go:560-570 | the markers are reported missing exactly when one of the four is absent; the extracted old and new texts are trimmed |
| GitHubWrapper.BlockParts | util/github/wrapper.go:560-570 | the layout of an edit block: old marker, old text, its end marker, new marker, new text, its end marker |
| GitHubWrapper.BlockOldEnd | util/github/wrapper.go:561 | in a well-formed block the old end marker is found right after the old text |
| GitHubWrapper.BlockNewStart | util/github/wrapper.go:562 | in a well-formed block the new marker is found right after the old end marker |
| GitHubWrapper.BlockNewEnd | util/github/wrapper.go:563 | in a well-formed block the new end marker is found right after the new text |
| GitHubWrapper.ExtractAt | util/github/wrapper.go:560-570 | when the markers are found in order, the edit is the trimmed texts between them |
| GitHubWrapper.ExtractBlock | util/github/wrapper.go:560-570 | extracting a well-formed block gives back its trimmed old and new texts |
| GitHubWrapper.UpdateFile | util/github/wrapper.go:546-606 | nothing is sent on the protected branch; a sent update is of the path on the query's first line, on the active branch, and carries the file read there with every occurrence of the block's old text replaced by its new text, which differs from what was read |
| GitHubWrapper.UpdateAt | util/github/wrapper.go:556-606 | missing markers give the invalid-format answer and out-of-order markers a panic, with nothing sent; a well-formed block on a readable file is written back by `WriteBack` from the file's content; reading a directory panics |
| GitHubWrapper.WriteBack | util/github/wrapper.go:572-605 | an update that would change nothing is refused and nothing is sent; otherwise the file is rewritten with every occurrence replaced |
| GitHubWrapper.UpdateFileBlock | util/github/wrapper.go:546-606 | for any well-formed rest of the query, a path line rewrites an existing file with every occurrence of the extracted old text replaced by the new text, or answers "not updated" when that changes nothing |
| GitHubWrapper.UpdateFileNoOp | util/github/wrapper.go:579-581 | for any well-formed rest, the update is refused exactly when old and new texts are equal or a non-empty old text is not in the file |
| GitHubWrapper.UpdateFileExample | util/github/wrapper.go:559-570 | a block written with the four markers around texts without angle brackets updates those texts, trimmed |
| GitHubWrapper.UpdateFileInverted | util/github/wrapper.go:569-570 | an end marker before its start marker panics, as Go's out-of-range slice does |
| GitHubWrapper.InvertedExample | util/github/wrapper.go:569 | a concrete input whose markers are out of order |
| GitHubWrapper.ModesPartition | util/github/wrapper.go:757-843 | every mode `Run` knows reads, sends or moves the active branch |
| GitHubWrapper.GetIssue | util/github/wrapper.go:346-382 | the issue is answered exactly when both the issue and its comments arrive; failures are wrapped with "failed to " |
| GitHubWrapper.GetPullRequest | util/github/wrapper.go:385-431 | the pull request is answered exactly when it arrives; failures are wrapped with "failed to " |
| GitHubWrapper.Query | util/github/wrapper.go:757-843 | a number that does not parse is refused with the mode's own message; every outcome is one `Run` reports |
| GitHubWrapper.Change | util/github/wrapper.go:757-843 | the sending modes never fail; on the protected branch the write modes send nothing |
| GitHubWrapper.Perform | util/github/wrapper.go:757-843 | an unknown mode fails with "invalid mode: "; only the sending modes send; the protected branch is never written |
| GitHubWrapper.ModesExact | util/github/wrapper.go:840-841 | the invalid-mode error occurs exactly for the modes `Run` does not know |
| GitHubWrapper.ReportedNotMode | util/github/wrapper.go:757-843 | no outcome of a known mode can be mistaken for the invalid-mode error |
| GitHubWrapper.CandidatesDistinct | util/github/wrapper.go:269-286 | the branch names tried are pairwise distinct |
| GitHubWrapper.EndOutcome | util/github/wrapper.go:278-292 | branch creation fails exactly when an attempt is refused for a reason other than an existing reference |
| GitHubWrapper.Candidates | util/github/wrapper.go:269 | exactly 1000 names are tried |
| GitHubWrapper.Attempts | util/github/wrapper.go:269-290 | no more requests than names; running out of names means every name was tried |
| GitHubWrapper.AttemptsSent | util/github/wrapper.go:270-277 | the `i`-th request creates the `i`-th candidate name from the base branch's head |
| GitHubWrapper.AttemptsRefused | util/github/wrapper.go:283-286 | every request before the last was refused because the reference already existed |
| GitHubWrapper.RefusedPrefix | util/github/wrapper.go:283-286 | a refusal for an existing reference extends a run of such refusals |
| GitHubWrapper.AttemptsCreated | util/github/wrapper.go:278-281 | a created branch is the name of the last request, and that request succeeded |
| GitHubWrapper.AttemptsExhausted | util/github/wrapper.go:269-292 | when every name is taken, the attempts end exhausted |
| GitHubWrapper.CreateFrom | util/github/wrapper.go:269-292 | the creation loop makes exactly the attempts above |
| GitHubWrapper.SwitchOutcome | util/github/wrapper.go:217-239 | switching fails exactly when the branch list cannot be fetched; a listed name answers "Switched to branch `name`", any other "Error name does not exist, …" with the `%v` list of the branches |
| GitHubWrapper.GitHubAPIWrapper.constructor | util/github/wrapper.go:99-108 | the wrapper holds the configured owner, repository, credentials and branches |
| GitHubWrapper.GitHubAPIWrapper.SetActiveBranch | util/github/wrapper.go:217-239 | the active branch becomes the name exactly when it is one of the repository's branches |
| GitHubWrapper.GitHubAPIWrapper.CreateBranch | util/github/wrapper.go:261-293 | without the base branch's head nothing is sent and the branch stays; otherwise the attempts are sent and the created branch becomes active |
| GitHubWrapper.GitHubAPIWrapper.Run | util/github/wrapper.go:757-843 | every mode but the branch modes leaves the active branch alone and performs its operation; `set_active_branch` switches as `SwitchOutcome` says; `create_branch` fails without a base head and otherwise sends the attempts over the 1000 candidate names, the created name becoming the active branch |
| DocumentLoaders.GettersStored | documentloaders/github.go:490-522 | each JSON getter gives back a value of its type stored under its key |
| DocumentLoaders.GettersDefault | documentloaders/github.go:490-522 | each getter gives its zero value when the key is missing or holds another type |
| DocumentLoaders.LabelNames | documentloaders/github.go:524-537 | at most one name per label, none empty |
| DocumentLoaders.LabelNamesAppend | documentloaders/github.go:528-535 | the names of two label lists are the names of each, in order |
| DocumentLoaders.LabelNamesListed | documentloaders/github.go:528-535 | a name is extracted exactly when some label object carries it as a non-empty string |
| DocumentLoaders.ExtractLabels | documentloaders/github.go:524-537 | an issue without a label array has no labels |
| DocumentLoaders.ExtractLabelsListed | documentloaders/github.go:524-537 | a name is among an issue's labels exactly when one of its label objects carries it |
| DocumentLoaders.GetAssignee | documentloaders/github.go:539-544 | the assignee is the nested `login` of the `assignee` object |
| DocumentLoaders.GetMilestone | documentloaders/github.go:546-551 | the milestone is the nested `title` of the `milestone` object |
| DocumentLoaders.ParseIssue | documentloaders/github.go:246-271 | the document is flagged as a pull request exactly when the issue carries a non-null `pull_request` |
| DocumentLoaders.ParsedIssue | documentloaders/github.go:246-271 | the content is the body, or the title when the body is empty; it is empty only when both are; title and labels are carried over |
| DocumentLoaders.ApplyAllIssues | documentloaders/github.go:58-60 | options never change the repository or the API address |
| DocumentLoaders.IssuesLoaderFor | documentloaders/github.go:42-64 | an empty repository and a missing token are reported in that order; a loader keeps the repository and the default API address |
| DocumentLoaders.NewIssuesLoader | documentloaders/github.go:42-64 | the constructor builds the loader defined above |
| DocumentLoaders.IssuesTokenOptionIgnored | documentloaders/github.go:46-60 | without the environment token, a token passed as an option still fails (see Findings) |
| DocumentLoaders.IssuesLoaderIntended | documentloaders/github.go:42-64 | with options applied before the check, a built loader always holds a token |
| DocumentLoaders.IssuesTokenOptionHonoured | documentloaders/github.go:70-74 | a token passed as an option is enough to build the loader |
| DocumentLoaders.IssuesIntendedAgrees | documentloaders/github.go:42-64 | with the environment token set, the corrected constructor agrees with the source's |
| DocumentLoaders.TokenStays | documentloaders/github.go:70-74 | options that do not clear the token leave a token in place |
| DocumentLoaders.FiltersHold | documentloaders/github.go:202-244 | a filter is in the query exactly when the loader's field for it is set to that value |
| DocumentLoaders.EntryHolds | documentloaders/github.go:206-238 | one filter contributes its own value and nothing else |
| DocumentLoaders.Add | documentloaders/github.go:206-238 | adding a filter appends its entry to the query |
| DocumentLoaders.QueryParams | documentloaders/github.go:204-238 | the query-building steps produce the loader's filters in the source's order |
| DocumentLoaders.FiltersEmpty | documentloaders/github.go:240-243 | the query is empty exactly when no filter is set |
| DocumentLoaders.BuildURL | documentloaders/github.go:202-244 | the method computes the issues address defined below |
| DocumentLoaders.IssuesURL | documentloaders/github.go:202-244 | the address starts with the issues endpoint, and is that endpoint alone exactly when no filter is set |
| DocumentLoaders.ExampleLoader | documentloaders/github.go:84-102 | the milestone, state and label options set those fields |
| DocumentLoaders.ExampleFilters | documentloaders/github.go:206-223 | the example's query holds the milestone, the state and the comma-joined labels, in that order |
| DocumentLoaders.BuildURLExample | documentloaders/github.go:202-244 | the example loader's address is the endpoint, `?`, and the encoded filters |
| DocumentLoaders.DefaultsFiltered | documentloaders/github.go:47-53 | without a state option the default state `open` is always in the query |
| DocumentLoaders.StateStays | documentloaders/github.go:84-88 | options other than the state option keep the state |
| DocumentLoaders.NextURL | documentloaders/github.go:273-287 | an empty header, or one where no link qualifies, has no next page; otherwise the next address is the target of the first qualifying link |
| DocumentLoaders.FirstNext | documentloaders/github.go:279-286 | the first link with two `;`-parts whose second names `rel="next"` gives its trimmed target, which carries no angle bracket at either end; none gives "" |
| DocumentLoaders.GetNextURL | documentloaders/github.go:273-287 | the loop over the link segments computes the next address defined above |
| DocumentLoaders.LinkParts | documentloaders/github.go:280 | a segment splits at `;` into its target and its parameter |
| DocumentLoaders.NextLinkParts | documentloaders/github.go:280-281 | a `rel="next"` segment splits into its bracketed target and its parameter |
| DocumentLoaders.NextParamNames | documentloaders/github.go:281 | the `rel="next"` parameter is recognised |
| DocumentLoaders.TargetUnspaced | documentloaders/github.go:282 | trimming spaces leaves a bracketed target alone |
| DocumentLoaders.TargetTrimmed | documentloaders/github.go:282 | trimming the brackets gives back the address |
| DocumentLoaders.FirstLinkFound | documentloaders/github.go:278-284 | the first `rel="next"` segment gives the next address |
| DocumentLoaders.NextLinkFirst | documentloaders/github.go:273-287 | a header opening with the next link of `u` yields `u` |
| DocumentLoaders.NextLinkSkipped | documentloaders/github.go:279-285 | a first segment that is not the next link is skipped |
| DocumentLoaders.PageDocs | documentloaders/github.go:174-180 | at most one document per issue; without pull requests requested, none is a pull request |
| DocumentLoaders.PageDocsAppend | documentloaders/github.go:174-180 | the documents of two pages are those of each, in order |
| DocumentLoaders.PageDocsAll | documentloaders/github.go:174-180 | with pull requests included, every issue becomes its parsed document, in order |
| DocumentLoaders.IssueDocsNoPulls | documentloaders/github.go:176-178 | without pull requests requested, no page yields a pull request |
| DocumentLoaders.PageDocsOne | documentloaders/github.go:174-180 | one issue is dropped exactly when it is a pull request and pull requests are not wanted |
| DocumentLoaders.KeepIssues | documentloaders/github.go:174-180 | the filtering loop computes the page's documents |
| DocumentLoaders.PrependTwice | documentloaders/github.go:179 | collecting two pages in turn is collecting both at once |
| DocumentLoaders.Crawled | documentloaders/github.go:142-191 | the first request goes to the start address, none when it is empty; a paginated loader asks for one page only |
| DocumentLoaders.CrawlStep | documentloaders/github.go:147-189 | a good page contributes its documents and the crawl goes on at its next link; a bad answer stops the crawl with an error |
| DocumentLoaders.CrawlFollowsLinks | documentloaders/github.go:187 | each request after the first goes to the next link of the answer before it |
| DocumentLoaders.CrawlSucceeded | documentloaders/github.go:158-189 | a successful crawl saw only status 200 and well-formed bodies, and stopped at a page without a next link |
| DocumentLoaders.CrawlWithoutPulls | documentloaders/github.go:174-180 | when no page yields a pull request, neither does the whole crawl |
| DocumentLoaders.Advance | documentloaders/github.go:147-189 | one turn of the loop moves a page's documents and address into the results |
| DocumentLoaders.LoadPages | documentloaders/github.go:142-191 | the load loop makes exactly the crawl defined above |
| DocumentLoaders.LoadIssues | documentloaders/github.go:142-191 | `Load` crawls from the built address along the `Link` headers |
| DocumentLoaders.IssuesWithoutPulls | documentloaders/github.go:176-178 | a loader that excludes pull requests loads none |
| DocumentLoaders.ApplyAllFiles | documentloaders/github.go:317-319 | options never change the repository or the API address |
| DocumentLoaders.FileLoaderFor | documentloaders/github.go:301-322 | an empty repository and a missing token are reported in that order; a loader keeps the repository |
| DocumentLoaders.NewFileLoader | documentloaders/github.go:301-322 | the constructor builds the loader defined above |
| DocumentLoaders.FileTokenOptionIgnored | documentloaders/github.go:305-319 | without the environment token, a token passed as an option still fails |
| DocumentLoaders.FileLoaderIntended | documentloaders/github.go:301-322 | with options applied before the check, a built loader always holds a token |
| DocumentLoaders.FileTokenOptionHonoured | documentloaders/github.go:328-332 | a token passed as an option is enough to build the loader |
| DocumentLoaders.Objects | documentloaders/github.go:434-438 | at most one file entry per tree item |
| DocumentLoaders.ObjectsAppend | documentloaders/github.go:434-438 | the entries of two item lists are those of each, in order |
| DocumentLoaders.ObjectsAll | documentloaders/github.go:434-438 | when every item is an object, every item is kept, in order |
| DocumentLoaders.TreeObjects | documentloaders/github.go:434-440 | the loop over the tree computes the entries |
| DocumentLoaders.FilePaths | documentloaders/github.go:401-441 | the tree is read exactly when the answer is status 200 with a `tree` array, and gives that array's objects |
| DocumentLoaders.Unwrapped | documentloaders/github.go:480 | the encoded content loses its line breaks and is otherwise untouched when it has none |
| DocumentLoaders.NoNewline | documentloaders/github.go:480 | removing every line break leaves none |
| DocumentLoaders.FileContent | documentloaders/github.go:443-487 | content is returned only for a status-200 object with a string `content`, decoded after unwrapping |
| DocumentLoaders.FileDocs | documentloaders/github.go:355-387 | reading the files never fails the load |
| DocumentLoaders.FileDocsKept | documentloaders/github.go:355-387 | every document is a blob that passes the filter, has non-empty content read from its path, and names its source |
| DocumentLoaders.FileDocsSkipsNonBlobs | documentloaders/github.go:359-361 | entries that are not blobs give no documents |
| DocumentLoaders.KeepFiles | documentloaders/github.go:355-387 | the loop over the entries computes the documents defined above |
| DocumentLoaders.LoadFiles | documentloaders/github.go:349-390 | a failed tree read fails the load; otherwise the documents are those of the tree's entries |
| AgentToolkit.PreprocessTrims | agents/github_toolkit.go:264-308 | modes that are neither numeric nor two-part receive the trimmed input |
| AgentToolkit.PreprocessRejoins | agents/github_toolkit.go:281-304 | two-part modes receive the trimmed input rejoined around a blank line |
| AgentToolkit.PreprocessNumbers | agents/github_toolkit.go:268-279 | numeric modes receive the number found in the trimmed input |
| AgentToolkit.PreprocessNumber | agents/github_toolkit.go:268-279 | a numeric mode gives the whole input's number, else the first word that parses, else the trimmed input |
| AgentToolkit.NumberedIdempotent | agents/github_toolkit.go:268-279 | preprocessing a numeric mode's output again changes nothing |
| AgentToolkit.PaddedNumber | agents/github_toolkit.go:265-271 | a number padded with white space becomes the number's canonical spelling |
| AgentToolkit.RejoinedStable | agents/github_toolkit.go:281-304 | the rejoined text is trimmed, and rejoining it again changes nothing |
| AgentToolkit.RejoinedIdempotent | agents/github_toolkit.go:281-304 | preprocessing a two-part mode's output again changes nothing |
| AgentToolkit.PreprocessTwoParts | agents/github_toolkit.go:281-304 | a one-line head and a body on the next line come out separated by a blank line |
| AgentToolkit.CreateTools | agents/github_toolkit.go:72-227 | the tool list is the core tools in order, then the release tools when asked for |
| AgentToolkit.CatalogueCoversModes | agents/github_toolkit.go:72-227 | with the release tools, there is a tool for each mode `Run` knows and for no other |
| AgentToolkit.CatalogueModesKnown | agents/github_toolkit.go:72-227 | every tool's mode is one `Run` knows |
| AgentToolkit.CatalogueDistinct | agents/github_toolkit.go:72-227 | no two tools share a name |
| AgentToolkit.ReleaseToolsOnRequest | agents/github_toolkit.go:202-224 | the release tools are present exactly when asked for |
| AgentToolkit.FindsOwnName | agents/github_toolkit.go:54-61 | looking up a tool's own name finds that tool when names are distinct |
| AgentToolkit.Wrapped | agents/github_toolkit.go:255-260 | a failure is wrapped with "GitHub operation failed: "; any other outcome passes through |
| AgentToolkit.Call | agents/github_toolkit.go:250-261 | the tool performs its mode on the preprocessed input through the shared wrapper; failures carry the wrapper prefix; `set_active_branch` and `create_branch` answer and move the active branch as the wrapper's `Run` does |
| AgentToolkit.FromGitHubAPIWrapper | agents/github_toolkit.go:42-46 | a new toolkit over the wrapper, with the release tools exactly when asked for |
| AgentToolkit.GitHubAgentToolkit.constructor | agents/github_toolkit.go:26-39 | only the first options value counts; the tools are the catalogue for it |
| AgentToolkit.GitHubAgentToolkit.GetToolByName | agents/github_toolkit.go:54-61 | the first tool with that name, or none when no tool has it |
| AgentToolkit.GitHubAgentToolkit.GetToolNames | agents/github_toolkit.go:64-70 | the tools' names, position by position |
| ToolClient.NewClient | tools/github/client.go:23-53 | the token and then the repository are required; a client's owner and name rejoin to the repository and contain no `/` |
| ToolClient.NewClientAccepts | tools/github/client.go:23-53 | any token and `owner/repo` without further slashes give that client |
| ToolClient.EmptyPartAccepted | tools/github/client.go:34-39 | a repository with an empty part such as `a/` is accepted |
| ToolClient.Send | tools/github/files.go:145-153 | the write is sent; the answer succeeds exactly when GitHub accepts it, and a refusal carries GitHub's error |
| ToolClient.Forwarded | tools/github/client.go:77-95 | an event reaches the handler exactly when one is set |
| ToolClient.Delivered | tools/github/client.go:77-95 | with a handler, every event reaches it once, in order; without one, none does |
| ToolClient.BaseTool.constructor | tools/github/client.go:65-69 | a new tool has no handler and has delivered nothing |
| ToolClient.BaseTool.SetCallbacksHandler | tools/github/client.go:72-74 | the handler is replaced and nothing is delivered |
| ToolClient.BaseTool.Handle | tools/github/client.go:77-95 | one event is delivered to the current handler, if any |
| ToolClient.BaseTool.Invoke | tools/github/client.go:77-95 | the start event, then the end or the error event, are delivered around a call |
| FileTools.ExistingPath | tools/github/files.go:45-53 | an input is refused as an empty path exactly when it is blank |
| FileTools.NewPath | tools/github/files.go:127-137 | a new path is refused exactly when it is blank or `/` alone |
| FileTools.PathRulesAgree | tools/github/files.go:45-54 | the two path rules agree except on `/`, which reads the root but cannot be created |
| FileTools.PlainPath | tools/github/files.go:45-54 | a trimmed path without a leading `/` is used as it is |
| FileTools.ReadFile | tools/github/files.go:42-76 | the file is answered exactly when the path is valid and names a readable file; a directory is refused |
| FileTools.ContentsSeparated | tools/github/files.go:73 | the answer's header and the content are separated by the first blank line |
| FileTools.CreateFile | tools/github/files.go:117-154 | without a blank line the input is refused; a sent file has the path before the blank line and the content after it |
| FileTools.CreateFileParts | tools/github/files.go:117-154 | a path, a blank line and a content create that file with that content |
| FileTools.UpdateFile | tools/github/files.go:202-276 | an invalid path is refused; a sent update is of the path on the first line and carries the file's content with every occurrence of the block's old text replaced, with the file's hash; a directory is refused as not found |
| FileTools.UpdateAt | tools/github/files.go:218-276 | missing markers are refused; out-of-order markers panic; a failed lookup is refused with its error; a directory is refused as not found; a readable file is written back by `WriteBack` |
| FileTools.WriteBack | tools/github/files.go:257-275 | the file is rewritten with every occurrence replaced, even when nothing changes; the answer succeeds exactly when GitHub accepts it |
| FileTools.UpdateFileBlock | tools/github/files.go:202-276 | for any well-formed rest of the input, a path line rewrites the file with every occurrence of the extracted old text replaced by the new text |
| FileTools.UpdateWritesUnchanged | tools/github/files.go:258-275 | for any well-formed rest whose old text is absent from the file, the unchanged file is still sent |
| FileTools.UpdateFileExample | tools/github/files.go:230-243 | a block written with the four markers around texts without angle brackets replaces those texts, trimmed |
| FileTools.DeleteFile | tools/github/files.go:308-349 | a deletion is sent exactly when the path is valid and names a file, with that file's hash |
| FileTools.DirectoriesRefused | tools/github/files.go:61-65 | a directory can be neither read nor deleted |
| IssueTools.GetIssues | tools/github/issues.go:43-68 | a fetch error is refused with its message; otherwise the header and one line per open issue |
| IssueTools.IssuesListed | tools/github/issues.go:60-63 | the listing reads back line by line as the header and one `Issue #n: title` line per issue, in order |
| IssueTools.Number | tools/github/issues.go:103-107 | the trimmed input parses exactly when `strconv.Atoi` accepts it, within the 64-bit range |
| IssueTools.NumberSpelled | tools/github/issues.go:103 | a number padded with white space reads back as that number |
| IssueTools.BodySection | tools/github/issues.go:128-133 | the body section is present exactly when there is a body, and holds it between its label and a blank line |
| IssueTools.CommentsSection | tools/github/issues.go:135-144 | the comment section is present exactly when there are comments |
| IssueTools.CommentsNumbered | tools/github/issues.go:137-143 | the `i`-th comment appears as the `(i + 1)`-th block, numbered `i + 1`, after the blocks before it |
| IssueTools.ShowIssue | tools/github/issues.go:122-144 | the answer is the header, the body section and the comment section |
| IssueTools.GetIssue | tools/github/issues.go:100-149 | a bad number, a missing issue and missing comments are each refused with their own message; otherwise the issue is shown |
| IssueTools.CommentOnIssue | tools/github/issues.go:185-223 | a comment is sent exactly when the input has a number, a blank line and a non-empty comment; success needs GitHub's acceptance |
| IssueTools.CommentParts | tools/github/issues.go:185-223 | a number, a blank line and a comment post the trimmed comment on that issue |
| PullTools.ListPullRequests | tools/github/pullrequests.go:43-68 | a fetch error is refused with its message; otherwise the header and one line per open pull request |
| PullTools.PullsListed | tools/github/pullrequests.go:60-63 | the listing reads back line by line as the header and one line per pull request, in order |
| PullTools.ShortSha | tools/github/pullrequests.go:147 | a hash of at least eight characters is cut to its first eight |
| PullTools.CommitsSection | tools/github/pullrequests.go:143-151 | the commit section is present exactly when there are commits |
| PullTools.WriteCommits | tools/github/pullrequests.go:143-151 | the loop panics exactly when some hash is shorter than eight characters, and otherwise writes one line per commit |
| PullTools.CommitsListed | tools/github/pullrequests.go:145-149 | the commit lines read back one per commit, in order |
| PullTools.ShowPull | tools/github/pullrequests.go:129-162 | the answer is the header, body, commits and comments, unless a short hash panics |
| PullTools.WriteSections | tools/github/pullrequests.go:143-162 | commits then comments, unless a short hash panics |
| PullTools.WithCommits | tools/github/pullrequests.go:143-151 | the commit section is appended, unless a short hash panics |
| PullTools.WithComments | tools/github/pullrequests.go:153-162 | the comment section is appended |
| PullTools.GetPullRequest | tools/github/pullrequests.go:100-167 | a bad number and each failed fetch are refused with their own message; otherwise the pull request is shown, or a short hash panics |
| PullTools.CreatePullRequest | tools/github/pullrequests.go:210-259 | without a blank line or with an empty title the input is refused; a pull request is sent from `HEAD` to the default branch exactly when both parts and the default branch are there |
| PullTools.CreatePullParts | tools/github/pullrequests.go:210-259 | a title, a blank line and a body send that pull request |
| PullTools.PatchPart | tools/github/pullrequests.go:315-318 | the patch section is present exactly when there is a patch |
| PullTools.FileBlock | tools/github/pullrequests.go:310-319 | every file block closes with the separator |
| PullTools.ListPullRequestFiles | tools/github/pullrequests.go:291-325 | a bad number and a failed fetch are refused; otherwise the header and one block per changed file |
| PullTools.FilesInOrder | tools/github/pullrequests.go:309-320 | the `i`-th file's block follows the blocks of the files before it and ends with the separator |
| RepositoryTools.ListBranches | tools/github/repository.go:42-60 | a fetch error is refused with its message; otherwise the header and one line per branch |
| RepositoryTools.BranchesListed | tools/github/repository.go:52-55 | the listing reads back as the header and one line per branch, in order |
| RepositoryTools.ItemLine | tools/github/repository.go:112-118 | an item gives no line exactly when it is hidden |
| RepositoryTools.SkipsHidden | tools/github/repository.go:112-118 | the listing is that of the items that are shown |
| RepositoryTools.DirectoryHeader | tools/github/repository.go:106-110 | the root directory and a named directory get their own headers |
| RepositoryTools.GetDirectoryFiles | tools/github/repository.go:92-123 | an unavailable directory is refused with its message; otherwise the header and the shown items |
| RepositoryTools.DirectoryListed | tools/github/repository.go:112-118 | the listing reads back as one line per shown item, in order |
| RepositoryTools.SearchesOwnRepository | tools/github/repository.go:166 | the search is restricted to the configured repository |
| RepositoryTools.Findings | tools/github/repository.go:183-197 | "No results found." appears exactly when the search found nothing |
| RepositoryTools.WriteHits | tools/github/repository.go:187-196 | the loop writes one block per hit, in order |
| RepositoryTools.WriteCodeFindings | tools/github/repository.go:183-197 | the findings section of a code search |
| RepositoryTools.SearchCode | tools/github/repository.go:155-202 | a blank query is refused; a failed search is refused with its message; otherwise the findings |
| RepositoryTools.ResultLabelled | tools/github/repository.go:267-271 | a hit is labelled `PR #` exactly when it is a pull request, `Issue #` otherwise |
| RepositoryTools.WriteIssueFindings | tools/github/repository.go:262-277 | the findings section of an issue search |
| RepositoryTools.SearchIssuesAndPRs | tools/github/repository.go:234-282 | a blank query is refused; a failed search is refused with its message; otherwise the findings |
| GitHubToolkit.Tool.constructor | tools/github/toolkit.go:29-33 | a tool of the given kind over a fresh base that has no handler and has delivered nothing |
| GitHubToolkit.Tool.Call | tools/github/client.go:65-95 | the tool's own `Call` runs, its events reach the handler, and only the writing tools send; a reading tool answers as `ReadAnswer` lists for its kind, a writing tool as its own operation |
| GitHubToolkit.Read | tools/github/toolkit.go:26-121 | each reading tool answers as its own operation promises: the refusals for a bad number, a blank query or a failed fetch, and otherwise the listing, issue, pull request, file or findings text it builds |
| GitHubToolkit.Catalogue | tools/github/toolkit.go:26-142 | fifteen core tools, opening with the issue listing, then the three release tools exactly when asked for |
| GitHubToolkit.Toolkit.Kinds | tools/github/toolkit.go:150-152 | the kinds of the tools, position by position |
| GitHubToolkit.Toolkit.GetToolByName | tools/github/toolkit.go:155-162 | the first tool with that name, or none |
| GitHubToolkit.Toolkit.GetToolNames | tools/github/toolkit.go:165-171 | the tools' names, position by position |
| GitHubToolkit.NewToolkit | tools/github/toolkit.go:20-147 | the toolkit fails exactly when the client cannot be built, with the first tool's message; otherwise it holds the catalogue's tools, each over a fresh base |
| GitHubToolkit.CatalogueDistinct | tools/github/toolkit.go:26-142 | no two tools share a name |
| GitHubToolkit.ReleaseToolsOnRequest | tools/github/toolkit.go:123-142 | the release tools are present exactly when asked for |
| GitHubToolkit.FindsOwnName | tools/github/toolkit.go:155-162 | a tool's own name finds that tool |
| GitHubToolkit.ListedNamesFound | tools/github/toolkit.go:155-171 | every listed name finds its tool |
| GitHubToolkit.UnknownNameMissing | tools/github/toolkit.go:155-162 | an unknown name finds nothing |

## Left out

- HTTP, JSON decoding, base64 and URL encoding: the transport is a value or a script of answers, and decoding and encoding are function parameters.
- Contexts, timeouts, and the GitHub App authentication transport: they are not modelled.
- Timestamps: they are carried as already-formatted strings.
- Page sizes (`PerPage`): the service returns the first page as a value.
- Tool descriptions: they are text for the agent and are not modelled.
- `GetTools` of both toolkits: it is the `tools` field.
- `Client.Owner` and `Client.Repo`: they are the fields of the `Client` value.
- `LoadAndSplit` of both loaders: text splitting is not part of this model.
- Callback handlers: they are identities that events are delivered to; what a handler does with an event is not modelled.
- Error texts from `strconv` are modelled as a `NotANumber` reason carrying the offending text, not as Go's exact wording.
- Integers: they are unbounded, and `strconv.Atoi` accepts exactly the 64-bit range.
- GitHubToolkit.Tool.Call: it requires a tool that is not a release tool. The three release tools of `tools/github/releases.go` lie outside the modelled tool files, so the toolkit lists them by kind and name only and their `Call` bodies are not modelled.
- GitHubWrapper.GetIssue and GitHubWrapper.GetPullRequest: the JSON text of the answer is a value given by the remote, and only success and failure are stated.
- GitHubWrapper.GetIssues and GitHubWrapper.ListOpenPullRequests: the answer is stated as the count line and the `%+v` list of the parsed records, but that list is not read back into records, since Go's `%+v` of a struct is not parseable in general.
- GitHubWrapper.SearchIssuesAndPRs: only the line count of the answer is stated, not its line-by-line content.
- GitHubWrapper.UpdateFile: the "Failed to read current file" branch is not reachable, because `ReadFile` reports its errors in its text. It is kept as written.
- The issues crawl reads a finite script of answers. A request past the end of the script fails like a transport error, so a server that keeps sending `next` links forever is not modelled.

## Findings

| source | as written | input that shows it | evidently intended | confidence | as-written member | corrected member |
|---|---|---|---|---|---|---|
| documentloaders/github.go:46-60 | the `GITHUB_PERSONAL_ACCESS_TOKEN` check runs before the options are applied, so `WithAccessToken` can never supply the token | `NewGitHubIssuesLoader("owner/repo", WithAccessToken("test-token"))` with the variable unset, as in documentloaders/github_test.go:32-35, which expects success | apply the options first, then require a non-empty token | not executed | DocumentLoaders.IssuesTokenOptionIgnored | DocumentLoaders.IssuesTokenOptionHonoured |
| documentloaders/github.go:305-319 | the file loader checks the token the same way before its options, so `WithFileAccessToken` can never supply it | `NewGitHubFileLoader("owner/repo", WithFileAccessToken("t"))` with the variable unset | apply the options first, then require a non-empty token | not executed | DocumentLoaders.FileTokenOptionIgnored | DocumentLoaders.FileTokenOptionHonoured |
