/**
 * The fixed tuple each remote item is projected to, and the identity
 * resolution rule for commit authors and committers.
 */
module Rows {
  import opened GitHub

  datatype CommitRow = CommitRow(
    sha: string,
    author: Option<string>,
    authorDate: Timestamp,
    committer: Option<string>,
    committerDate: Timestamp
  )

  datatype IssueRow = IssueRow(
    number: int,
    createdBy: string,
    createdAt: Timestamp,
    state: string,
    closedBy: Option<string>,
    closedAt: Option<Timestamp>
  )

  datatype PullRow = PullRow(
    number: int,
    createdBy: string,
    createdAt: Timestamp,
    state: string,
    commits: nat,
    mergedBy: Option<string>,
    mergedAt: Option<Timestamp>
  )

  datatype CommentRow = CommentRow(number: int, issue: int, createdBy: string, createdAt: Timestamp)

  /** The person exposes a login attribute and it is a non-empty string. */
  predicate HasLogin(p: Person) {
    p.login.Some? && p.login.value != ""
  }

  /** How string formatting renders an attribute that may be unset. */
  function Show(s: Option<string>): (r: string) {
    match s
    case Some(v) => v
    case None => "None"
  }

  /** The "name <email>" fallback for an identity without a usable login. */
  function Contact(p: Person): (r: string)
    ensures |r| == |Show(p.name)| + |Show(p.email)| + 3
    ensures r[..|Show(p.name)|] == Show(p.name)
    ensures r[|r| - 1] == '>'
  {
    Show(p.name) + " <" + Show(p.email) + ">"
  }

  /**
   * Identity resolution: the login when there is a usable one, otherwise
   * "name <email>", and nothing when there is no person at all.
   */
  function ResolveIdentity(person: Option<Person>): (r: Option<string>)
    ensures r.None? <==> person.None?
    ensures person.Some? && HasLogin(person.value) ==> r == person.value.login
    ensures person.Some? && !HasLogin(person.value) ==> r == Some(Contact(person.value))
    ensures (person.Some? && !HasLogin(person.value) && person.value.name.Some? && person.value.email.Some?) ==>
              r == Some(person.value.name.value + " <" + person.value.email.value + ">")
    ensures r.Some? ==> r.value != ""
  {
    match person
    case None => None
    case Some(p) => if HasLogin(p) then p.login else Some(Contact(p))
  }

  /** A usable login decides the result alone: name and email are ignored. */
  lemma LoginIgnoresContact(a: Person, b: Person)
    requires HasLogin(a) && a.login == b.login
    ensures ResolveIdentity(Some(a)) == ResolveIdentity(Some(b))
  {
  }

  /** A missing login attribute and an empty login fall back alike. */
  lemma MissingAndEmptyLoginAgree(name: Option<string>, email: Option<string>)
    ensures ResolveIdentity(Some(Person(None, name, email)))
         == ResolveIdentity(Some(Person(Some(""), name, email)))
         == Some(Show(name) + " <" + Show(email) + ">")
  {
  }

  /** The dates come from the git metadata, whether or not a person was resolved. */
  function ProjectCommit(c: Commit): (r: CommitRow)
    ensures r.sha == c.sha
    ensures r.author.None? <==> c.author.None?
    ensures r.committer.None? <==> c.committer.None?
    ensures r.authorDate == c.commit.author.date && r.committerDate == c.commit.committer.date
  {
    CommitRow(
      c.sha,
      ResolveIdentity(c.author), c.commit.author.date,
      ResolveIdentity(c.committer), c.commit.committer.date)
  }

  /** The closer is reported exactly when present; closedAt is copied whatever the state. */
  function ProjectIssue(i: Issue): (r: IssueRow)
    ensures r.closedBy.None? <==> i.closedBy.None?
    ensures i.closedBy.Some? ==> r.closedBy == Some(i.closedBy.value.login)
    ensures r.closedAt == i.closedAt
  {
    IssueRow(
      i.number, i.user.login, i.createdAt, i.state,
      if i.closedBy.Some? then Some(i.closedBy.value.login) else None,
      i.closedAt)
  }

  /** The merger is reported exactly when present; mergedAt is copied whatever the state. */
  function ProjectPull(p: Pull): (r: PullRow)
    ensures r.mergedBy.None? <==> p.mergedBy.None?
    ensures p.mergedBy.Some? ==> r.mergedBy == Some(p.mergedBy.value.login)
    ensures r.mergedAt == p.mergedAt
  {
    PullRow(
      p.number, p.user.login, p.createdAt, p.state, p.commits,
      if p.mergedBy.Some? then Some(p.mergedBy.value.login) else None,
      p.mergedAt)
  }

  /** A comment row is tagged with the number of the issue it was listed under. */
  function ProjectComment(issue: Issue, c: Comment): (r: CommentRow)
    ensures r.issue == issue.number
    ensures r.number == c.id && r.createdBy == c.user.login && r.createdAt == c.createdAt
  {
    CommentRow(c.id, issue.number, c.user.login, c.createdAt)
  }

  /** One output per input, in input order. */
  function Each<A, B>(f: A -> B, xs: seq<A>): (r: seq<B>)
    ensures |r| == |xs|
    ensures forall k :: 0 <= k < |xs| ==> r[k] == f(xs[k])
  {
    if xs == [] then [] else Each(f, xs[..|xs| - 1]) + [f(xs[|xs| - 1])]
  }
}
