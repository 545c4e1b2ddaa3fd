/**
 * The written files, seen as their header and their sequence of records.
 * Quoting and the textual encoding of the comma-separated format are not
 * modelled; a record is the sequence of its cells in column order.
 */
module Tables {
  import opened GitHub
  import opened Rows

  datatype Cell = Empty | Text(text: string) | Integer(value: int) | Date(at: Timestamp)

  datatype Table = Table(header: seq<string>, records: seq<seq<Cell>>)

  const CommitsHeader: seq<string> := ["sha", "author", "author_date", "committer", "committer_date"]
  const IssuesHeader: seq<string> := ["number", "created_by", "created_at", "state", "closed_by", "closed_at"]
  const PullsHeader: seq<string> := ["number", "created_by", "created_at", "state", "commits", "merged_by", "merged_at"]
  const CommentsHeader: seq<string> := ["number", "issue", "created_by", "created_at"]

  /** Every record has one cell per header column. */
  predicate Rectangular(t: Table) {
    forall k :: 0 <= k < |t.records| ==> |t.records[k]| == |t.header|
  }

  /** No column name occurs twice. */
  predicate DistinctColumns(header: seq<string>) {
    forall a, b :: 0 <= a < b < |header| ==> header[a] != header[b]
  }

  function TextOrEmpty(s: Option<string>): (c: Cell) {
    if s.Some? then Text(s.value) else Empty
  }

  function DateOrEmpty(t: Option<Timestamp>): (c: Cell) {
    if t.Some? then Date(t.value) else Empty
  }

  function CommitCells(r: CommitRow): (cells: seq<Cell>) {
    [Text(r.sha), TextOrEmpty(r.author), Date(r.authorDate), TextOrEmpty(r.committer), Date(r.committerDate)]
  }

  function IssueCells(r: IssueRow): (cells: seq<Cell>) {
    [Integer(r.number), Text(r.createdBy), Date(r.createdAt), Text(r.state), TextOrEmpty(r.closedBy), DateOrEmpty(r.closedAt)]
  }

  function PullCells(r: PullRow): (cells: seq<Cell>) {
    [Integer(r.number), Text(r.createdBy), Date(r.createdAt), Text(r.state), Integer(r.commits),
     TextOrEmpty(r.mergedBy), DateOrEmpty(r.mergedAt)]
  }

  function CommentCells(r: CommentRow): (cells: seq<Cell>) {
    [Integer(r.number), Integer(r.issue), Text(r.createdBy), Date(r.createdAt)]
  }

  function CommitsTable(rows: seq<CommitRow>): (t: Table)
    ensures Rectangular(t) && DistinctColumns(t.header) && |t.records| == |rows|
  {
    Table(CommitsHeader, Each(CommitCells, rows))
  }

  function IssuesTable(rows: seq<IssueRow>): (t: Table)
    ensures Rectangular(t) && DistinctColumns(t.header) && |t.records| == |rows|
  {
    Table(IssuesHeader, Each(IssueCells, rows))
  }

  function PullsTable(rows: seq<PullRow>): (t: Table)
    ensures Rectangular(t) && DistinctColumns(t.header) && |t.records| == |rows|
  {
    Table(PullsHeader, Each(PullCells, rows))
  }

  function CommentsTable(rows: seq<CommentRow>): (t: Table)
    ensures Rectangular(t) && DistinctColumns(t.header) && |t.records| == |rows|
  {
    Table(CommentsHeader, Each(CommentCells, rows))
  }

  /** The position of the first column with the given name, if any. */
  function ColumnIndex(header: seq<string>, column: string): (r: Option<nat>)
    ensures r.Some? ==> r.value < |header| && header[r.value] == column && column !in header[..r.value]
    ensures r.None? ==> column !in header
  {
    if header == [] then None
    else if header[0] == column then Some(0)
    else match ColumnIndex(header[1..], column)
      case None => None
      case Some(k) => assert header[..k + 1] == [header[0]] + header[1..][..k]; Some(k + 1)
  }

  /** The cell of record i that sits under the named column. */
  function Lookup(t: Table, i: nat, column: string): (r: Option<Cell>) {
    if i < |t.records| then
      match ColumnIndex(t.header, column)
      case None => None
      case Some(k) => if k < |t.records[i]| then Some(t.records[i][k]) else None
    else None
  }

  /** In a rectangular table with distinct column names, column header[k] of record i is its cell k. */
  lemma LookupColumn(t: Table, i: nat, k: nat)
    requires Rectangular(t) && DistinctColumns(t.header)
    requires i < |t.records| && k < |t.header|
    ensures Lookup(t, i, t.header[k]) == Some(t.records[i][k])
  {
  }
}
