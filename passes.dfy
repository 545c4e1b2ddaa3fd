/**
 * The four accumulation loops: each walks its input listing and appends one
 * row per item, and the comments pass walks every issue's own comments.
 */
module Passes {
  import opened GitHub
  import opened Rows

  method CollectCommits(commits: seq<Commit>) returns (data: seq<CommitRow>)
    ensures |data| == |commits|
    ensures forall k :: 0 <= k < |commits| ==> data[k] == ProjectCommit(commits[k])
  {
    data := [];
    var i := 0;
    while i < |commits|
      invariant 0 <= i <= |commits|
      invariant |data| == i
      invariant forall k :: 0 <= k < i ==> data[k] == ProjectCommit(commits[k])
    {
      data := data + [ProjectCommit(commits[i])];
      i := i + 1;
    }
  }

  method CollectIssues(issues: seq<Issue>) returns (data: seq<IssueRow>)
    ensures |data| == |issues|
    ensures forall k :: 0 <= k < |issues| ==> data[k] == ProjectIssue(issues[k])
  {
    data := [];
    var i := 0;
    while i < |issues|
      invariant 0 <= i <= |issues|
      invariant |data| == i
      invariant forall k :: 0 <= k < i ==> data[k] == ProjectIssue(issues[k])
    {
      data := data + [ProjectIssue(issues[i])];
      i := i + 1;
    }
  }

  method CollectPulls(pulls: seq<Pull>) returns (data: seq<PullRow>)
    ensures |data| == |pulls|
    ensures forall k :: 0 <= k < |pulls| ==> data[k] == ProjectPull(pulls[k])
  {
    data := [];
    var i := 0;
    while i < |pulls|
      invariant 0 <= i <= |pulls|
      invariant |data| == i
      invariant forall k :: 0 <= k < i ==> data[k] == ProjectPull(pulls[k])
    {
      data := data + [ProjectPull(pulls[i])];
      i := i + 1;
    }
  }

  /** The rows one issue contributes: its comments in order, each tagged with its number. */
  function IssueCommentRows(issue: Issue): (r: seq<CommentRow>)
    ensures |r| == |issue.comments|
    ensures forall k :: 0 <= k < |r| ==> r[k] == ProjectComment(issue, issue.comments[k])
  {
    Each(c => ProjectComment(issue, c), issue.comments)
  }

  /** The total number of comments over all issues. */
  function CommentCount(issues: seq<Issue>): (n: nat) {
    if issues == [] then 0 else CommentCount(issues[..|issues| - 1]) + |issues[|issues| - 1].comments|
  }

  /** The comments pass: concatenation, over the issues in order, of each issue's rows. */
  function CommentRows(issues: seq<Issue>): (r: seq<CommentRow>)
    ensures |r| == CommentCount(issues)
  {
    if issues == [] then []
    else CommentRows(issues[..|issues| - 1]) + IssueCommentRows(issues[|issues| - 1])
  }

  method CollectComments(issues: seq<Issue>) returns (data: seq<CommentRow>)
    ensures data == CommentRows(issues)
  {
    data := [];
    var i := 0;
    while i < |issues|
      invariant 0 <= i <= |issues|
      invariant data == CommentRows(issues[..i])
    {
      var issue := issues[i];
      ghost var before, own := data, IssueCommentRows(issue);
      var j := 0;
      while j < |issue.comments|
        invariant 0 <= j <= |issue.comments|
        invariant data == before + own[..j]
      {
        assert own[..j + 1] == own[..j] + [own[j]];
        data := data + [ProjectComment(issue, issue.comments[j])];
        j := j + 1;
      }
      assert own[..j] == own;
      assert issues[..i + 1][..i] == issues[..i];
      i := i + 1;
    }
    assert issues[..|issues|] == issues;
  }

  /** The comments pass distributes over a split of the issue listing. */
  lemma {:induction false} CommentRowsAppend(a: seq<Issue>, b: seq<Issue>)
    ensures CommentRows(a + b) == CommentRows(a) + CommentRows(b)
    decreases |b|
  {
    if b == [] {
      assert a + b == a;
    } else {
      var n := |b| - 1;
      assert (a + b)[..|a + b| - 1] == a + b[..n];
      assert (a + b)[|a + b| - 1] == b[n];
      CommentRowsAppend(a, b[..n]);
      calc {
        CommentRows(a + b);
        CommentRows(a + b[..n]) + IssueCommentRows(b[n]);
        (CommentRows(a) + CommentRows(b[..n])) + IssueCommentRows(b[n]);
        CommentRows(a) + (CommentRows(b[..n]) + IssueCommentRows(b[n]));
        CommentRows(a) + CommentRows(b);
      }
    }
  }

  /**
   * Fan-out: comment j of issue i is the row at offset CommentCount(issues[..i]) + j,
   * and that row carries issue i's number.
   */
  lemma {:induction false} CommentRowsAt(issues: seq<Issue>, i: nat, j: nat)
    requires i < |issues| && j < |issues[i].comments|
    ensures CommentCount(issues[..i]) + j < |CommentRows(issues)|
    ensures CommentRows(issues)[CommentCount(issues[..i]) + j] == ProjectComment(issues[i], issues[i].comments[j])
    ensures CommentRows(issues)[CommentCount(issues[..i]) + j].issue == issues[i].number
    decreases |issues|
  {
    var n := |issues| - 1;
    var head := CommentRows(issues[..n]);
    if i < n {
      CommentRowsAt(issues[..n], i, j);
      assert issues[..n][..i] == issues[..i];
    } else {
      assert |head| == CommentCount(issues[..i]);
    }
  }

  /** Every comment row comes from some comment of some issue, and carries that issue's number. */
  lemma {:induction false} CommentRowsFromParents(issues: seq<Issue>, k: nat)
    requires k < |CommentRows(issues)|
    ensures exists i, j :: 0 <= i < |issues| && 0 <= j < |issues[i].comments| &&
              CommentRows(issues)[k] == ProjectComment(issues[i], issues[i].comments[j])
    decreases |issues|
  {
    var n := |issues| - 1;
    var front := CommentRows(issues[..n]);
    if k < |front| {
      CommentRowsFromParents(issues[..n], k);
      var i, j :| 0 <= i < n && 0 <= j < |issues[..n][i].comments| &&
                  front[k] == ProjectComment(issues[..n][i], issues[..n][i].comments[j]);
      assert issues[..n][i] == issues[i];
    } else {
      var j := k - |front|;
      assert CommentRows(issues)[k] == ProjectComment(issues[n], issues[n].comments[j]);
    }
  }

  /** An issue without comments contributes no rows. */
  lemma IssueWithoutCommentsAddsNoRows(a: seq<Issue>, issue: Issue, b: seq<Issue>)
    requires issue.comments == []
    ensures CommentRows(a + [issue] + b) == CommentRows(a + b)
  {
    CommentRowsAppend(a + [issue], b);
    CommentRowsAppend(a, [issue]);
    CommentRowsAppend(a, b);
    assert [issue][..0] == [];
  }

  /** Two issues, the first with three comments and the second with none: three rows, all tagged 1. */
  lemma FanOutExample(first: Issue, second: Issue)
    requires first.number == 1 && |first.comments| == 3 && second.comments == []
    ensures |CommentRows([first, second])| == 3
    ensures forall k :: 0 <= k < 3 ==> CommentRows([first, second])[k].issue == 1
  {
  }
}
