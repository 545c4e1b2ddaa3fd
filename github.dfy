/**
 * The items the hosting platform's API client hands to the extractor, as
 * plain values. Only the attributes the extractor consults are kept.
 * Dates are opaque: the extractor copies them through and never looks inside.
 */
module GitHub {

  datatype Option<+T> = None | Some(value: T)

  /** An opaque date value as delivered by the client. */
  datatype Timestamp = Timestamp(text: string)

  /**
   * The author or committer attached to a commit. A platform account has a
   * login; a plain git identity has none. Name and email may be unset.
   */
  datatype Person = Person(login: Option<string>, name: Option<string>, email: Option<string>)

  /** Author or committer metadata recorded inside the git commit itself. */
  datatype GitSignature = GitSignature(date: Timestamp)

  datatype GitCommit = GitCommit(author: GitSignature, committer: GitSignature)

  /** A commit: the platform's view of author and committer, and the git metadata. */
  datatype Commit = Commit(
    sha: string,
    author: Option<Person>,
    committer: Option<Person>,
    commit: GitCommit
  )

  /** A platform-native actor on issues, pull requests and comments. */
  datatype User = User(login: string)

  datatype Comment = Comment(id: int, user: User, createdAt: Timestamp)

  /** An issue together with the comments its own listing yields, in order. */
  datatype Issue = Issue(
    number: int,
    user: User,
    createdAt: Timestamp,
    state: string,
    closedBy: Option<User>,
    closedAt: Option<Timestamp>,
    comments: seq<Comment>
  )

  datatype Pull = Pull(
    number: int,
    user: User,
    createdAt: Timestamp,
    state: string,
    commits: nat,
    mergedBy: Option<User>,
    mergedAt: Option<Timestamp>
  )
}
