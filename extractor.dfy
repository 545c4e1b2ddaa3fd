/**
 * The extractor's main sequence: four passes over one repository, each
 * guarded by the existence of its output file in the repository's output
 * directory, each either writing its whole file or raising and ending the run.
 */
module Extractor {
  import opened GitHub
  import opened Rows
  import opened Tables
  import opened Passes

  datatype Pass = CommitsPass | IssuesPass | PullsPass | CommentsPass

  /**
   * What the API client yields for one repository. `failing` holds the passes
   * during which iterating the remote raises (network failure, exhausted rate
   * limit); the rows gathered before the error are discarded, so where in the
   * iteration it raises makes no difference to what is written.
   */
  datatype Repository = Repository(
    commits: seq<Commit>,
    issues: seq<Issue>,
    pulls: seq<Pull>,
    failing: set<Pass>
  )

  function FileName(p: Pass): (name: string) {
    match p
    case CommitsPass => "commits.csv"
    case IssuesPass => "issues.csv"
    case PullsPass => "pulls.csv"
    case CommentsPass => "comments.csv"
  }

  const AllFiles: set<string> := {"commits.csv", "issues.csv", "pulls.csv", "comments.csv"}

  /** The file a pass writes when it runs to completion. */
  function Written(p: Pass, repo: Repository): (t: Table) {
    match p
    case CommitsPass => CommitsTable(Each(ProjectCommit, repo.commits))
    case IssuesPass => IssuesTable(Each(ProjectIssue, repo.issues))
    case PullsPass => PullsTable(Each(ProjectPull, repo.pulls))
    case CommentsPass => CommentsTable(CommentRows(repo.issues))
  }

  /** Each pass writes its fixed header and one record per item it iterated. */
  lemma WrittenShape(p: Pass, repo: Repository)
    ensures Rectangular(Written(p, repo)) && DistinctColumns(Written(p, repo).header)
    ensures p == CommitsPass ==>
              Written(p, repo).header == CommitsHeader && |Written(p, repo).records| == |repo.commits|
    ensures p == IssuesPass ==>
              Written(p, repo).header == IssuesHeader && |Written(p, repo).records| == |repo.issues|
    ensures p == PullsPass ==>
              Written(p, repo).header == PullsHeader && |Written(p, repo).records| == |repo.pulls|
    ensures p == CommentsPass ==>
              Written(p, repo).header == CommentsHeader && |Written(p, repo).records| == CommentCount(repo.issues)
  {
  }

  /**
   * The observable state of a run: the directory's files, the passes that
   * iterated the remote, and whether the process is still running, that is,
   * whether no pass has raised so far.
   */
  datatype RunState = RunState(files: map<string, Table>, fetched: seq<Pass>, running: bool)

  /**
   * One guarded pass. It iterates the remote exactly when the process is still
   * running and the pass's file is absent, it stops the process exactly when it
   * iterates and raises, and the only file it can add is its own.
   */
  function Step(s: RunState, p: Pass, repo: Repository): (r: RunState)
    ensures r.fetched == s.fetched || r.fetched == s.fetched + [p]
    ensures r.fetched == s.fetched + [p] <==> s.running && FileName(p) !in s.files
    ensures r.running <==> s.running && (FileName(p) in s.files || p !in repo.failing)
    ensures r.files.Keys <= s.files.Keys + {FileName(p)}
  {
    if !s.running then s
    else if FileName(p) in s.files then s
    else if p in repo.failing then RunState(s.files, s.fetched + [p], false)
    else RunState(s.files[FileName(p) := Written(p, repo)], s.fetched + [p], true)
  }

  /** The four passes in the order the main sequence runs them. */
  const PassOrder: seq<Pass> := [CommitsPass, IssuesPass, PullsPass, CommentsPass]

  /** The given passes, one after the other. */
  function RunPasses(s: RunState, passes: seq<Pass>, repo: Repository): (r: RunState)
    ensures !s.running ==> r == s
    ensures r.running ==> s.running
    ensures |s.fetched| <= |r.fetched| <= |s.fetched| + |passes| && r.fetched[..|s.fetched|] == s.fetched
    decreases |passes|
  {
    if passes == [] then s
    else
      var t := Step(s, passes[0], repo);
      var r := RunPasses(t, passes[1..], repo);
      assert r.fetched[..|s.fetched|] == r.fetched[..|t.fetched|][..|s.fetched|];
      r
  }

  /** A whole run: commits, issues, pulls and comments, in that order. */
  function RunFrom(files: map<string, Table>, repo: Repository): (r: RunState)
    ensures |r.fetched| <= |PassOrder|
  {
    RunPasses(RunState(files, [], true), PassOrder, repo)
  }

  datatype PassStatus = Skipped | Wrote | Raised

  /** The output directory of one repository: file name to file contents. */
  class OutputDirectory {
    var files: map<string, Table>

    constructor (existing: map<string, Table>)
      ensures files == existing
    {
      files := existing;
    }

    /** Runs pass p unless its file already exists. */
    method RunPass(p: Pass, repo: Repository) returns (status: PassStatus)
      modifies this
      ensures status == Skipped <==> FileName(p) in old(files)
      ensures status == Raised <==> FileName(p) !in old(files) && p in repo.failing
      ensures files == if status == Wrote then old(files)[FileName(p) := Written(p, repo)] else old(files)
    {
      if FileName(p) in files {
        return Skipped;
      }
      if p in repo.failing {
        return Raised;
      }
      var table: Table;
      match p {
        case CommitsPass =>
          var data := CollectCommits(repo.commits);
          assert data == Each(ProjectCommit, repo.commits);
          table := CommitsTable(data);
        case IssuesPass =>
          var data := CollectIssues(repo.issues);
          assert data == Each(ProjectIssue, repo.issues);
          table := IssuesTable(data);
        case PullsPass =>
          var data := CollectPulls(repo.pulls);
          assert data == Each(ProjectPull, repo.pulls);
          table := PullsTable(data);
        case CommentsPass =>
          var data := CollectComments(repo.issues);
          table := CommentsTable(data);
      }
      files := files[FileName(p) := table];
      status := Wrote;
    }

    /** The main sequence; it stops at the first pass that raises. */
    method Run(repo: Repository) returns (fetched: seq<Pass>, completed: bool)
      modifies this
      ensures RunState(files, fetched, completed) == RunFrom(old(files), repo)
    {
      fetched, completed := [], true;
      fetched, completed := Guarded(CommitsPass, repo, fetched);
      assert RunFrom(old(files), repo) == RunPasses(RunState(files, fetched, completed), PassOrder[1..], repo);
      if !completed {
        StoppedRunStays(RunState(files, fetched, completed), PassOrder[1..], repo);
        return;
      }
      ghost var rest := PassOrder[1..];
      fetched, completed := Guarded(IssuesPass, repo, fetched);
      assert RunFrom(old(files), repo) == RunPasses(RunState(files, fetched, completed), rest[1..], repo);
      if !completed {
        StoppedRunStays(RunState(files, fetched, completed), rest[1..], repo);
        return;
      }
      rest := rest[1..];
      fetched, completed := Guarded(PullsPass, repo, fetched);
      assert RunFrom(old(files), repo) == RunPasses(RunState(files, fetched, completed), rest[1..], repo);
      if !completed {
        StoppedRunStays(RunState(files, fetched, completed), rest[1..], repo);
        return;
      }
      rest := rest[1..];
      fetched, completed := Guarded(CommentsPass, repo, fetched);
      assert rest[1..] == [];
    }

    /** One guarded block of the main sequence, run while the process is still going. */
    method Guarded(p: Pass, repo: Repository, before: seq<Pass>) returns (fetched: seq<Pass>, running: bool)
      modifies this
      ensures RunState(files, fetched, running) == Step(RunState(old(files), before, true), p, repo)
    {
      var status := RunPass(p, repo);
      fetched := if status == Skipped then before else before + [p];
      running := status != Raised;
    }
  }

  /**
   * `after` is `before` with some output files added: nothing present is
   * overwritten or removed, and every added file is what its pass writes.
   */
  ghost predicate OnlyAddsOutputs(before: map<string, Table>, after: map<string, Table>, repo: Repository) {
    && (forall n :: n in before ==> n in after && after[n] == before[n])
    && after.Keys <= before.Keys + AllFiles
    && (forall p :: FileName(p) in after && FileName(p) !in before ==> after[FileName(p)] == Written(p, repo))
  }

  lemma StepOnlyAddsOutputs(s: RunState, p: Pass, repo: Repository)
    ensures OnlyAddsOutputs(s.files, Step(s, p, repo).files, repo)
    ensures Step(s, p, repo).files.Keys <= s.files.Keys + {FileName(p)}
    ensures Step(s, p, repo).running ==> s.running && FileName(p) in Step(s, p, repo).files
    ensures s.running && repo.failing == {} ==> Step(s, p, repo).running
  {
    var t := Step(s, p, repo);
    if t.files != s.files {
      assert t.files == s.files[FileName(p) := Written(p, repo)];
      forall q | FileName(q) in t.files && FileName(q) !in s.files
        ensures t.files[FileName(q)] == Written(q, repo)
      {
        assert q == p;
      }
    }
  }

  lemma OnlyAddsOutputsTransitive(a: map<string, Table>, b: map<string, Table>, c: map<string, Table>, repo: Repository)
    requires OnlyAddsOutputs(a, b, repo) && OnlyAddsOutputs(b, c, repo)
    ensures OnlyAddsOutputs(a, c, repo)
  {
  }

  lemma RunFromUnrolled(files: map<string, Table>, repo: Repository)
    ensures var s0 := RunState(files, [], true);
      RunFrom(files, repo)
        == Step(Step(Step(Step(s0, CommitsPass, repo), IssuesPass, repo), PullsPass, repo), CommentsPass, repo)
  {
    var s0 := RunState(files, [], true);
    var s1 := Step(s0, CommitsPass, repo);
    var s2 := Step(s1, IssuesPass, repo);
    var s3 := Step(s2, PullsPass, repo);
    assert PassOrder[1..] == [IssuesPass, PullsPass, CommentsPass];
    assert PassOrder[1..][1..] == [PullsPass, CommentsPass];
    assert PassOrder[1..][1..][1..] == [CommentsPass];
    assert RunPasses(s0, PassOrder, repo) == RunPasses(s1, [IssuesPass, PullsPass, CommentsPass], repo);
    assert RunPasses(s1, [IssuesPass, PullsPass, CommentsPass], repo) == RunPasses(s2, [PullsPass, CommentsPass], repo);
    assert RunPasses(s2, [PullsPass, CommentsPass], repo) == RunPasses(s3, [CommentsPass], repo);
  }

  /** The facts about a sequence of passes that the run lemmas rest on. */
  lemma {:induction false} RunPassesShape(s: RunState, passes: seq<Pass>, repo: Repository)
    ensures OnlyAddsOutputs(s.files, RunPasses(s, passes, repo).files, repo)
    ensures RunPasses(s, passes, repo).running ==>
              s.running && forall k :: 0 <= k < |passes| ==> FileName(passes[k]) in RunPasses(s, passes, repo).files
    ensures s.running && repo.failing == {} ==> RunPasses(s, passes, repo).running
    decreases |passes|
  {
    if passes != [] {
      var t := Step(s, passes[0], repo);
      var r := RunPasses(t, passes[1..], repo);
      StepOnlyAddsOutputs(s, passes[0], repo);
      RunPassesShape(t, passes[1..], repo);
      OnlyAddsOutputsTransitive(s.files, t.files, r.files, repo);
      if r.running {
        forall k | 0 <= k < |passes| ensures FileName(passes[k]) in r.files {
          if k > 0 {
            assert passes[k] == passes[1..][k - 1];
          }
        }
      }
    }
  }

  /** Once a pass has raised, the process has ended: no later pass does anything. */
  lemma {:induction false} StoppedRunStays(s: RunState, passes: seq<Pass>, repo: Repository)
    requires !s.running
    ensures RunPasses(s, passes, repo) == s
    decreases |passes|
  {
    if passes != [] {
      StoppedRunStays(s, passes[1..], repo);
    }
  }

  /** Passes whose files all exist do nothing. */
  lemma {:induction false} PresentPassesSkip(s: RunState, passes: seq<Pass>, repo: Repository)
    requires forall k :: 0 <= k < |passes| ==> FileName(passes[k]) in s.files
    ensures RunPasses(s, passes, repo) == s
    decreases |passes|
  {
    if passes != [] {
      PresentPassesSkip(s, passes[1..], repo);
    }
  }

  lemma {:induction false} RunPassesSameKeys(a: RunState, b: RunState, passes: seq<Pass>, repo: Repository)
    requires a.files.Keys == b.files.Keys && a.fetched == b.fetched && a.running == b.running
    ensures RunPasses(a, passes, repo).files.Keys == RunPasses(b, passes, repo).files.Keys
    ensures RunPasses(a, passes, repo).fetched == RunPasses(b, passes, repo).fetched
    ensures RunPasses(a, passes, repo).running == RunPasses(b, passes, repo).running
    decreases |passes|
  {
    if passes != [] {
      StepSameKeys(a, b, passes[0], repo);
      RunPassesSameKeys(Step(a, passes[0], repo), Step(b, passes[0], repo), passes[1..], repo);
    }
  }

  lemma {:induction false} RunPassesStopsAtFailure(s: RunState, passes: seq<Pass>, repo: Repository)
    requires s.running && !RunPasses(s, passes, repo).running
    ensures var r := RunPasses(s, passes, repo);
      |r.fetched| > 0 && r.fetched[|r.fetched| - 1] in repo.failing &&
      FileName(r.fetched[|r.fetched| - 1]) !in r.files
    decreases |passes|
  {
    var t := Step(s, passes[0], repo);
    assert RunPasses(s, passes, repo) == RunPasses(t, passes[1..], repo);
    if t.running {
      RunPassesStopsAtFailure(t, passes[1..], repo);
    } else {
      StoppedRunStays(t, passes[1..], repo);
      StepStops(s, passes[0], repo);
    }
  }

  /** A pass that stops a running sequence is recorded last, raised, and left its file absent. */
  lemma StepStops(s: RunState, p: Pass, repo: Repository)
    requires s.running && !Step(s, p, repo).running
    ensures Step(s, p, repo) == RunState(s.files, s.fetched + [p], false)
    ensures p in repo.failing && FileName(p) !in s.files
  {
  }

  /** The passes a sequence adds to the fetched list are drawn from the sequence: none fetches twice. */
  lemma {:induction false} RunPassesFetchesFromPasses(s: RunState, passes: seq<Pass>, repo: Repository)
    ensures |s.fetched| <= |RunPasses(s, passes, repo).fetched|
    ensures multiset(RunPasses(s, passes, repo).fetched[|s.fetched|..]) <= multiset(passes)
    decreases |passes|
  {
    var r := RunPasses(s, passes, repo);
    if passes == [] {
      assert r.fetched[|s.fetched|..] == [];
    } else {
      var t := Step(s, passes[0], repo);
      assert r == RunPasses(t, passes[1..], repo);
      RunPassesFetchesFromPasses(t, passes[1..], repo);
      assert passes == [passes[0]] + passes[1..];
      assert multiset(passes) == multiset([passes[0]]) + multiset(passes[1..]);
      if t.fetched == s.fetched {
        assert r.fetched[|s.fetched|..] == r.fetched[|t.fetched|..];
      } else {
        assert t.fetched == s.fetched + [passes[0]];
        SplitAfterPrefix(r.fetched, s.fetched, passes[0]);
      }
    }
  }

  /** A sequence that starts with x + [p] continues, after x, with p and then the rest. */
  lemma SplitAfterPrefix<T>(z: seq<T>, x: seq<T>, p: T)
    requires |x| + 1 <= |z| && z[..|x| + 1] == x + [p]
    ensures multiset(z[|x|..]) == multiset([p]) + multiset(z[|x| + 1..])
  {
    assert z[|x|] == (x + [p])[|x|] == p;
    assert z[|x|..] == [p] + z[|x| + 1..];
  }

  /** In a whole run each of the four passes iterates the remote at most once. */
  lemma RunFetchesEachPassOnce(files: map<string, Table>, repo: Repository)
    ensures forall p :: multiset(RunFrom(files, repo).fetched)[p] <= 1
  {
    var s0 := RunState(files, [], true);
    var f := RunPasses(s0, PassOrder, repo).fetched;
    RunPassesFetchesFromPasses(s0, PassOrder, repo);
    assert f[|s0.fetched|..] == f;
    PassOrderOnce();
  }

  lemma PassOrderOnce()
    ensures forall p :: multiset(PassOrder)[p] == 1
  {
    assert PassOrder == [CommitsPass] + [IssuesPass] + [PullsPass] + [CommentsPass];
    forall p ensures multiset(PassOrder)[p] == 1 {
      match p
      case CommitsPass =>
      case IssuesPass =>
      case PullsPass =>
      case CommentsPass =>
    }
  }

  /** The facts about a whole run that the lemmas below rest on. */
  lemma RunShape(files: map<string, Table>, repo: Repository)
    ensures OnlyAddsOutputs(files, RunFrom(files, repo).files, repo)
    ensures RunFrom(files, repo).running ==> AllFiles <= RunFrom(files, repo).files.Keys
    ensures repo.failing == {} ==> RunFrom(files, repo).running
  {
    RunPassesShape(RunState(files, [], true), PassOrder, repo);
    var r := RunFrom(files, repo);
    if r.running {
      PassOrderNames(r.files);
    }
  }

  /** Holding the file of every pass in PassOrder is holding all four output files. */
  lemma PassOrderNames(m: map<string, Table>)
    requires forall k :: 0 <= k < |PassOrder| ==> FileName(PassOrder[k]) in m
    ensures AllFiles <= m.Keys
  {
    assert FileName(PassOrder[0]) in m && FileName(PassOrder[1]) in m;
    assert FileName(PassOrder[2]) in m && FileName(PassOrder[3]) in m;
  }

  /** An existing file is never overwritten, and a run adds only output files holding what their pass wrote. */
  lemma RunKeepsExistingFiles(files: map<string, Table>, repo: Repository)
    ensures forall n :: n in files ==> n in RunFrom(files, repo).files && RunFrom(files, repo).files[n] == files[n]
    ensures RunFrom(files, repo).files.Keys <= files.Keys + AllFiles
    ensures forall p :: FileName(p) in RunFrom(files, repo).files && FileName(p) !in files ==>
              RunFrom(files, repo).files[FileName(p)] == Written(p, repo)
  {
    RunShape(files, repo);
  }

  /** A run that completes leaves every output file present; a run without remote errors completes. */
  lemma CompletedRunWritesAll(files: map<string, Table>, repo: Repository)
    ensures repo.failing == {} ==> RunFrom(files, repo).running
    ensures RunFrom(files, repo).running ==> RunFrom(files, repo).files.Keys == files.Keys + AllFiles
  {
    RunShape(files, repo);
  }

  /** With all four files present no pass iterates the remote and nothing changes, whatever the remote holds. */
  lemma AllPresentIsNoOp(files: map<string, Table>, repo: Repository)
    requires AllFiles <= files.Keys
    ensures RunFrom(files, repo) == RunState(files, [], true)
  {
    PresentPassesSkip(RunState(files, [], true), PassOrder, repo);
  }

  /** Running twice is running once: after a run that completed, a second run fetches nothing and changes nothing. */
  lemma RunTwiceIsRunOnce(files: map<string, Table>, repo: Repository, again: Repository)
    requires RunFrom(files, repo).running
    ensures RunFrom(RunFrom(files, repo).files, again) == RunState(RunFrom(files, repo).files, [], true)
  {
    CompletedRunWritesAll(files, repo);
    AllPresentIsNoOp(RunFrom(files, repo).files, again);
  }

  lemma StepSameKeys(a: RunState, b: RunState, p: Pass, repo: Repository)
    requires a.files.Keys == b.files.Keys && a.fetched == b.fetched && a.running == b.running
    ensures Step(a, p, repo).files.Keys == Step(b, p, repo).files.Keys
    ensures Step(a, p, repo).fetched == Step(b, p, repo).fetched
    ensures Step(a, p, repo).running == Step(b, p, repo).running
  {
  }

  /** The gate looks only at which files exist, never at their contents. */
  lemma GateIgnoresContents(a: map<string, Table>, b: map<string, Table>, repo: Repository)
    requires a.Keys == b.Keys
    ensures RunFrom(a, repo).fetched == RunFrom(b, repo).fetched
    ensures RunFrom(a, repo).running == RunFrom(b, repo).running
    ensures RunFrom(a, repo).files.Keys == RunFrom(b, repo).files.Keys
  {
    RunPassesSameKeys(RunState(a, [], true), RunState(b, [], true), PassOrder, repo);
  }

  /** A run that raises stops at a pass whose file is still absent. */
  lemma FailedRunStopsAtFailingPass(files: map<string, Table>, repo: Repository)
    requires !RunFrom(files, repo).running
    ensures var r := RunFrom(files, repo);
      |r.fetched| > 0 && r.fetched[|r.fetched| - 1] in repo.failing &&
      FileName(r.fetched[|r.fetched| - 1]) !in r.files
  {
    RunPassesStopsAtFailure(RunState(files, [], true), PassOrder, repo);
  }

  /**
   * Resuming after a failure: re-running against the same remote data, this
   * time without errors, leaves the directory as one uninterrupted run would.
   */
  lemma ResumeAfterFailure(files: map<string, Table>, first: Repository, second: Repository)
    requires first.commits == second.commits && first.issues == second.issues && first.pulls == second.pulls
    requires second.failing == {}
    ensures RunFrom(RunFrom(files, first).files, second).files == RunFrom(files, second).files
  {
    var partial := RunFrom(files, first).files;
    RunShape(files, first);
    RunShape(partial, second);
    RunShape(files, second);
    CompletionsAgree(files, partial, RunFrom(partial, second).files, RunFrom(files, second).files, first, second);
  }

  /**
   * Two ways of completing a directory agree: directly, or through an
   * intermediate directory that the same data partly completed.
   */
  lemma CompletionsAgree(files: map<string, Table>, partial: map<string, Table>, resumed: map<string, Table>,
                         direct: map<string, Table>, first: Repository, second: Repository)
    requires first.commits == second.commits && first.issues == second.issues && first.pulls == second.pulls
    requires OnlyAddsOutputs(files, partial, first) && OnlyAddsOutputs(partial, resumed, second)
    requires OnlyAddsOutputs(files, direct, second)
    requires AllFiles <= resumed.Keys && AllFiles <= direct.Keys
    ensures resumed == direct
  {
    assert resumed.Keys == direct.Keys;
    forall n | n in direct ensures resumed[n] == direct[n] {
      if n !in files {
        var p := PassWriting(n);
        WrittenIgnoresFailures(p, first, second);
      }
    }
  }

  /** The pass whose output file has the given name. */
  function PassWriting(n: string): (p: Pass)
    requires n in AllFiles
    ensures FileName(p) == n
  {
    if n == "commits.csv" then CommitsPass
    else if n == "issues.csv" then IssuesPass
    else if n == "pulls.csv" then PullsPass
    else CommentsPass
  }

  lemma WrittenIgnoresFailures(p: Pass, a: Repository, b: Repository)
    requires a.commits == b.commits && a.issues == b.issues && a.pulls == b.pulls
    ensures Written(p, a) == Written(p, b)
  {
  }

  /** Only commits.csv present and no errors: the other three passes run, in order, and write the other three files. */
  lemma PartialResume(files: map<string, Table>, repo: Repository)
    requires files.Keys == {"commits.csv"} && repo.failing == {}
    ensures RunFrom(files, repo).fetched == [IssuesPass, PullsPass, CommentsPass]
    ensures RunFrom(files, repo).files.Keys == AllFiles
    ensures RunFrom(files, repo).files["commits.csv"] == files["commits.csv"]
  {
    assert "issues.csv" !in files && "pulls.csv" !in files && "comments.csv" !in files;
    var s0 := RunState(files, [], true);
    var s1 := Step(s0, CommitsPass, repo);
    var s2 := Step(s1, IssuesPass, repo);
    var s3 := Step(s2, PullsPass, repo);
    assert s1 == s0;
    assert s2.fetched == [IssuesPass] && s2.running && "pulls.csv" !in s2.files;
    assert s3.fetched == [IssuesPass, PullsPass] && s3.running && "comments.csv" !in s3.files;
    RunFromUnrolled(files, repo);
    RunShape(files, repo);
  }

  /** commits.csv: record i holds commit i, under the fixed column names. */
  lemma CommitsFileColumns(repo: Repository, i: nat)
    requires i < |repo.commits|
    ensures |Written(CommitsPass, repo).records| == |repo.commits|
    ensures var t, c := Written(CommitsPass, repo), repo.commits[i];
      && Lookup(t, i, "sha") == Some(Text(c.sha))
      && Lookup(t, i, "author") == Some(TextOrEmpty(ResolveIdentity(c.author)))
      && Lookup(t, i, "author_date") == Some(Date(c.commit.author.date))
      && Lookup(t, i, "committer") == Some(TextOrEmpty(ResolveIdentity(c.committer)))
      && Lookup(t, i, "committer_date") == Some(Date(c.commit.committer.date))
  {
    var t := Written(CommitsPass, repo);
    LookupColumn(t, i, 0);
    LookupColumn(t, i, 1);
    LookupColumn(t, i, 2);
    LookupColumn(t, i, 3);
    LookupColumn(t, i, 4);
  }

  /** issues.csv: record i holds issue i; closed_by is empty exactly when there is no closer. */
  lemma IssuesFileColumns(repo: Repository, i: nat)
    requires i < |repo.issues|
    ensures |Written(IssuesPass, repo).records| == |repo.issues|
    ensures var t, x := Written(IssuesPass, repo), repo.issues[i];
      && Lookup(t, i, "number") == Some(Integer(x.number))
      && Lookup(t, i, "created_by") == Some(Text(x.user.login))
      && Lookup(t, i, "created_at") == Some(Date(x.createdAt))
      && Lookup(t, i, "state") == Some(Text(x.state))
      && Lookup(t, i, "closed_by") == Some(if x.closedBy.Some? then Text(x.closedBy.value.login) else Empty)
      && Lookup(t, i, "closed_at") == Some(DateOrEmpty(x.closedAt))
  {
    var t := Written(IssuesPass, repo);
    LookupColumn(t, i, 0);
    LookupColumn(t, i, 1);
    LookupColumn(t, i, 2);
    LookupColumn(t, i, 3);
    LookupColumn(t, i, 4);
    LookupColumn(t, i, 5);
  }

  /** pulls.csv: record i holds pull request i; merged_by is empty exactly when there is no merger. */
  lemma PullsFileColumns(repo: Repository, i: nat)
    requires i < |repo.pulls|
    ensures |Written(PullsPass, repo).records| == |repo.pulls|
    ensures var t, x := Written(PullsPass, repo), repo.pulls[i];
      && Lookup(t, i, "number") == Some(Integer(x.number))
      && Lookup(t, i, "created_by") == Some(Text(x.user.login))
      && Lookup(t, i, "created_at") == Some(Date(x.createdAt))
      && Lookup(t, i, "state") == Some(Text(x.state))
      && Lookup(t, i, "commits") == Some(Integer(x.commits))
      && Lookup(t, i, "merged_by") == Some(if x.mergedBy.Some? then Text(x.mergedBy.value.login) else Empty)
      && Lookup(t, i, "merged_at") == Some(DateOrEmpty(x.mergedAt))
  {
    var t := Written(PullsPass, repo);
    LookupColumn(t, i, 0);
    LookupColumn(t, i, 1);
    LookupColumn(t, i, 2);
    LookupColumn(t, i, 3);
    LookupColumn(t, i, 4);
    LookupColumn(t, i, 5);
    LookupColumn(t, i, 6);
  }

  /** comments.csv: comment j of issue i sits at record CommentCount(issues[..i]) + j, tagged with the issue's number. */
  lemma CommentsFileColumns(repo: Repository, i: nat, j: nat)
    requires i < |repo.issues| && j < |repo.issues[i].comments|
    ensures |Written(CommentsPass, repo).records| == CommentCount(repo.issues)
    ensures var t, x, c, k := Written(CommentsPass, repo), repo.issues[i], repo.issues[i].comments[j],
                              CommentCount(repo.issues[..i]) + j;
      && Lookup(t, k, "number") == Some(Integer(c.id))
      && Lookup(t, k, "issue") == Some(Integer(x.number))
      && Lookup(t, k, "created_by") == Some(Text(c.user.login))
      && Lookup(t, k, "created_at") == Some(Date(c.createdAt))
  {
    var t := Written(CommentsPass, repo);
    var k := CommentCount(repo.issues[..i]) + j;
    CommentRowsAt(repo.issues, i, j);
    LookupColumn(t, k, 0);
    LookupColumn(t, k, 1);
    LookupColumn(t, k, 2);
    LookupColumn(t, k, 3);
  }
}
