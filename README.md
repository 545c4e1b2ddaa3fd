# Repository activity extractor, modelled in Dafny

The extractor takes one repository on a source-hosting platform. It fetches the
repository's commits, issues, pull requests and issue comments, and writes each
collection to its own comma-separated file in the repository's output directory:
`commits.csv`, `issues.csv`, `pulls.csv` and `comments.csv`. A pass runs only when its
file is absent, so an existing file counts as done (the skip gate). Any error while
the remote is being iterated ends the process before that pass writes anything.

The model keeps the deterministic logic inside that plumbing:

- `GitHub`: the items the API client yields, as plain datatypes. A commit author or
  committer is an `Option<Person>`. A `Person` has an optional login, name and email.
- `Rows`: identity resolution for commit authors and committers, and the fixed row each
  commit, issue, pull request and comment becomes.
- `Tables`: a written file as its header and its records of cells. The four header
  constants are here, and a column can be looked up by name.
- `Passes`: the four accumulation loops, written as methods with loop invariants. The
  comments pass is a nested loop whose rows are specified by `CommentRows`.
- `Extractor`: the skip gate and the main sequence. The class `OutputDirectory` holds the
  directory's files as a map from file name to table. The function `RunFrom` specifies a
  whole run, and the lemmas prove idempotence, resume and no-overwrite.

Behaviour of the code worth noting; the model follows the code:

- `closed_at` and `merged_at` are copied through whatever the issue's or pull request's
  state (extract.py:82, 107). Nothing in the extractor ties them to `state` or to the
  closer or merger being present. Any such coupling comes from the platform, not from
  this program.
- The comments file's header is `number, issue, created_by, created_at` (extract.py:139).
  The comment's id sits under `number`, and the parent issue's number under `issue`.
- A re-run with all four files present still uses the network. Before any gate the program
  connects, reads the rate-limit telemetry and looks the repository up (extract.py:24-27), and it
  takes the output directory's name from that reply (extract.py:29). What the model proves for such
  a run is that no pass iterates the remote and no file changes.
- The fallback identity is rendered by string formatting. An unset name or email
  therefore appears as `None` (for example `None <bob@example.com>`). When both are set,
  the result is exactly `name + " <" + email + ">"`.

## Model

| member | source | states |
|---|---|---|
| `Rows.ResolveIdentity` | extract.py:43-57 | no person gives None and a person always gives a value; a non-empty login is returned as is; otherwise the result is "name <email>", and exactly `name + " <" + email + ">"` when both are set; a resolved identity is never empty |
| `Rows.Contact` | extract.py:47 | the fallback string starts with the rendered name, ends with `>`, and is three characters longer than name and email together |
| `Rows.LoginIgnoresContact` | extract.py:43-45 | two people with the same non-empty login resolve alike, whatever their name and email |
| `Rows.MissingAndEmptyLoginAgree` | extract.py:44-47 | a missing login attribute and an empty login both fall back to "name <email>" |
| `Rows.ProjectCommit` | extract.py:42-60 | the commit row carries the commit's sha and the git author and committer dates; the author or committer column is empty exactly when the platform reports no such person |
| `Rows.ProjectIssue` | extract.py:77-84 | `closed_by` is absent exactly when there is no closer, and is otherwise the closer's login; `closed_at` is copied unchanged |
| `Rows.ProjectPull` | extract.py:101-109 | `merged_by` is absent exactly when there is no merger, and is otherwise the merger's login; `merged_at` is copied unchanged |
| `Rows.ProjectComment` | extract.py:127-132 | a comment row carries the comment's id, its author's login and its creation date, and is tagged with the number of the issue it was listed under |
| `Rows.Each` | extract.py:40-61 | one output per input, and output k is the projection of input k |
| `Tables.CommitsTable` | extract.py:66-70 | the commits file has one record per row, each with one cell per column, under distinct column names |
| `Tables.IssuesTable` | extract.py:90-94 | the issues file has one record per row, each with one cell per column, under distinct column names |
| `Tables.PullsTable` | extract.py:115-119 | the pulls file has one record per row, each with one cell per column, under distinct column names |
| `Tables.CommentsTable` | extract.py:138-142 | the comments file has one record per row, each with one cell per column, under distinct column names |
| `Passes.CollectCommits` | extract.py:40-61 | the loop yields exactly one row per commit, in input order |
| `Passes.CollectIssues` | extract.py:75-85 | the loop yields exactly one row per issue, in input order |
| `Passes.CollectPulls` | extract.py:99-110 | the loop yields exactly one row per pull request, in input order |
| `Passes.CollectComments` | extract.py:124-133 | the nested loop yields the concatenation, over the issues in order, of each issue's tagged comment rows |
| `Passes.IssueCommentRows` | extract.py:126-133 | an issue contributes one row per comment, in order, each tagged with the issue's number |
| `Passes.CommentRows` | extract.py:124-133 | the comments pass has as many rows as there are comments over all issues |
| `Passes.CommentRowsAppend` | extract.py:125-126 | the comment rows of two issue listings placed end to end are the two row sequences placed end to end |
| `Passes.CommentRowsAt` | extract.py:125-133 | comment j of issue i is row CommentCount(issues[..i]) + j, and that row carries issue i's number |
| `Passes.CommentRowsFromParents` | extract.py:125-133 | every comment row is the projection of some comment of some issue, tagged with that issue's number |
| `Passes.IssueWithoutCommentsAddsNoRows` | extract.py:125-126 | inserting an issue without comments does not change the comment rows |
| `Passes.FanOutExample` | extract.py:124-133 | issue 1 with three comments followed by an issue with none gives three rows, all tagged 1 |
| `Extractor.WrittenShape` | extract.py:66-142 | the file `Written` gives each pass has that pass's fixed header, distinct column names, one cell per column in every record, and one record per commit, issue, pull request or comment |
| `Extractor.Step` | extract.py:39-72 | one guarded block iterates the remote exactly when the process is still running and its file is absent; it ends the process exactly when it iterates and raises; the only file it can add is its own |
| `Extractor.RunPasses` | extract.py:39-144 | a stopped process stays stopped and unchanged; a process that ends running was running at the start; a sequence adds at most one fetch per pass it holds, and the passes fetched earlier are kept in order |
| `Extractor.RunPassesFetchesFromPasses` | extract.py:39-144 | the passes a sequence adds to the fetched list are, counted with multiplicity, among the passes of the sequence |
| `Extractor.RunFetchesEachPassOnce` | extract.py:35-144 | in a whole run each of the four passes iterates the remote at most once |
| `Extractor.RunFrom` | extract.py:35-144 | a whole run starts from the existing files with nothing fetched, runs the four guarded blocks in order, and fetches at most four passes |
| `Extractor.OutputDirectory.RunPass` | extract.py:39-144 | a pass whose file exists is skipped and changes nothing; a pass that raises writes nothing; otherwise it adds exactly its own file with what its pass writes |
| `Extractor.OutputDirectory.Run` | extract.py:35-144 | the four guarded passes run in order and stop at the first that raises; the resulting files, the passes that fetched, and completion match `RunFrom` |
| `Extractor.OutputDirectory.Guarded` | extract.py:39-72 | one guarded block of the main sequence leaves the directory, the fetched passes and completion as `Step` gives them: skipped when the file exists, stopped when the pass raises, otherwise its file is added |
| `Extractor.StepOnlyAddsOutputs` | extract.py:39-72 | one guarded pass overwrites and removes nothing and adds at most its own file, with what that pass writes; a pass that leaves the run going has its file present afterwards |
| `Extractor.RunPassesSameKeys` | extract.py:39-123 | from states with the same file names, the same passes fetch, complete and add the same names: the guards consult only existence |
| `Extractor.RunKeepsExistingFiles` | extract.py:39-144 | a run never overwrites or removes a file; it adds only the four output files, each holding what its pass writes |
| `Extractor.CompletedRunWritesAll` | extract.py:39-144 | a run without remote errors completes, and a completed run leaves all four output files present |
| `Extractor.AllPresentIsNoOp` | extract.py:39-144 | with all four files present no pass iterates the remote and no file changes, whatever the remote holds |
| `Extractor.RunTwiceIsRunOnce` | extract.py:39-144 | after a completed run, in a second run no pass iterates the remote and every file stays as it was |
| `Extractor.GateIgnoresContents` | extract.py:39-123 | two directories with the same file names yield the same fetched passes, completion and file names: only existence is consulted |
| `Extractor.FailedRunStopsAtFailingPass` | extract.py:39-144 | a run that raises stops at a failing pass, and that pass's file is absent afterwards |
| `Extractor.ResumeAfterFailure` | extract.py:39-144 | re-running after a failed run, on the same data and without errors, leaves the directory as one uninterrupted run would |
| `Extractor.PartialResume` | extract.py:39-144 | with only `commits.csv` present and no errors, the issues, pulls and comments passes fetch in that order, the directory ends with exactly the four output files, and `commits.csv` keeps its contents |
| `Extractor.CommitsFileColumns` | extract.py:42-70 | record i of `commits.csv` holds commit i's sha, resolved author, author date, resolved committer and committer date, under the named columns |
| `Extractor.IssuesFileColumns` | extract.py:76-94 | record i of `issues.csv` holds issue i's number, creator, creation date, state, closer login (empty when there is none) and closing date |
| `Extractor.PullsFileColumns` | extract.py:100-119 | record i of `pulls.csv` holds pull request i's number, creator, creation date, state, commit count, merger login (empty when there is none) and merge date |
| `Extractor.CommentsFileColumns` | extract.py:124-142 | the record of comment j of issue i in `comments.csv` holds the comment's id, the issue's number, the commenter's login and the creation date |

## Left out

- The API client (connecting, `get_repo`, `get_commits`, `get_issues`, `get_pulls`, `get_comments`), authentication, pagination and rate-limit telemetry (extract.py:24-27, 35-37, 64, 88, 113, 136). This is a network client and a foreign library. Its results are the input sequences of `Repository`. A failure in the preamble (a bad key, no network, an unknown repository at extract.py:24-27) ends the process before any pass runs, and that failure is not modelled: every modelled run gets past the preamble.
- Remote errors are modelled per pass, as the set `Repository.failing`. Exactly where inside a pass the iteration raises is not modelled. The rows gathered before the error are discarded, so it makes no difference to any file.
- The comments pass iterates the issue listing a second time. The model gives both passes the same issue sequence, and each issue's comments are a field of the issue.
- Writes are modelled as atomic: a pass either adds its whole file or adds nothing. Local I/O failures while a file is being written (disk full, permissions, the process killed during `to_csv` at extract.py:70, 94, 119, 142) are not modelled. In the program they can leave a truncated file in place, and the gate would then treat it as done on every later run. `RunKeepsExistingFiles` ("each holding what its pass writes"), `ResumeAfterFailure` and `RunTwiceIsRunOnce` hold only under this assumption.
- DataFrame construction, CSV quoting and text encoding (extract.py:66-70, 90-94, 115-119, 138-142). These are library serialisation. A file is its header and its records of cells.
- Command-line parsing, logging, progress bars, the output path `out/<repository name>` and directory creation (extract.py:9-31). These are UI and I/O plumbing. `OutputDirectory` is the repository's own directory.
- Dates, including the reset-time formatting (extract.py:26). Timestamps are opaque values copied through.
- The `hasattr(..., 'login')` reflection is an optional login field.
- The process exit status and stack traces on failure. The model reports only whether the run completed.
