/**
 * The aggregate statement built for one segment, given meaning over spans:
 * which spans it selects and which per-project rows it returns. The SQL
 * text and the span-filter compiler are not modelled; a filter condition
 * is judged by an uninterpreted predicate over spans.
 */
module TokenCountStatement {
  import opened Wrappers
  import opened TokenCounts

  /** A span, with the project of its trace and its two optional token counts. */
  datatype Span = Span(
    projectRowId: ProjectRowId,
    startTime: Timestamp,
    promptTokens: Option<int>,
    completionTokens: Option<int>)

  /** The meaning of the span-filter language: does this span satisfy this condition? */
  type SpanFilter = (string, Span) -> bool

  /** One restriction added to the statement with `where`. */
  datatype Clause =
    | StartsAtOrAfter(bound: Timestamp)
    | StartsBefore(bound: Timestamp)
    | SatisfiesCondition(condition: string)
    | ProjectIn(projectRowIds: set<ProjectRowId>)

  /** A grouped aggregate over spans joined with their traces, restricted by its clauses. */
  datatype Statement = Statement(clauses: seq<Clause>)

  /** One result row: a project and its three aggregated counts. */
  datatype Row = Row(projectRowId: ProjectRowId, prompt: int, completion: int, total: int)

  /** The failure a statement's execution may end in. */
  datatype QueryError = QueryError(message: string)

  function Where(stmt: Statement, clause: Clause): Statement
  {
    Statement(stmt.clauses + [clause])
  }

  /** The projects of a set of params. */
  function ProjectIds(params: set<Param>): (ids: set<ProjectRowId>)
    ensures forall p :: p in params ==> p.projectRowId in ids
  {
    set p | p in params :: p.projectRowId
  }

  /** Every project of a set of params is the project of one of them. */
  lemma ProjectIdsWitness(params: set<Param>, id: ProjectRowId) returns (p: Param)
    requires id in ProjectIds(params)
    ensures p in params && p.projectRowId == id
  {
    p :| p in params && p.projectRowId == id;
  }

  /**
   * The statement for a segment and the params asked under it: a lower bound
   * only when a start is given, an upper bound only when an end is given, the
   * filter only when the condition is a non-empty string, and always the
   * restriction to the params' projects, added last.
   */
  function GetStmt(segment: Segment, params: set<Param>): (stmt: Statement)
    ensures |stmt.clauses| > 0
    ensures stmt.clauses[|stmt.clauses| - 1] == ProjectIn(ProjectIds(params))
    ensures forall c :: c in stmt.clauses ==> c.ProjectIn? ==> c == ProjectIn(ProjectIds(params))
  {
    var stmt := Statement([]);
    var stmt := if segment.interval.start.Some?
      then Where(stmt, StartsAtOrAfter(segment.interval.start.value)) else stmt;
    var stmt := if segment.interval.end.Some?
      then Where(stmt, StartsBefore(segment.interval.end.value)) else stmt;
    var stmt := if segment.filterCondition.Some? && segment.filterCondition.value != ""
      then Where(stmt, SatisfiesCondition(segment.filterCondition.value)) else stmt;
    Where(stmt, ProjectIn(ProjectIds(params)))
  }

  predicate Holds(clause: Clause, span: Span, spanFilter: SpanFilter)
  {
    match clause
    case StartsAtOrAfter(bound) => bound <= span.startTime
    case StartsBefore(bound) => span.startTime < bound
    case SatisfiesCondition(condition) => spanFilter(condition, span)
    case ProjectIn(ids) => span.projectRowId in ids
  }

  predicate Selects(stmt: Statement, span: Span, spanFilter: SpanFilter)
  {
    forall c :: c in stmt.clauses ==> Holds(c, span, spanFilter)
  }

  /** The half-open window [start, end), each bound applying only when present. */
  predicate InInterval(interval: TimeInterval, t: Timestamp)
  {
    && (interval.start.Some? ==> interval.start.value <= t)
    && (interval.end.Some? ==> t < interval.end.value)
  }

  /** A filter condition restricts only when it is a non-empty string. */
  predicate PassesCondition(condition: FilterCondition, span: Span, spanFilter: SpanFilter)
  {
    condition.Some? && condition.value != "" ==> spanFilter(condition.value, span)
  }

  /** What the statement of a segment selects: window, filter and project set. */
  lemma GetStmtSelects(segment: Segment, params: set<Param>, span: Span, spanFilter: SpanFilter)
    ensures Selects(GetStmt(segment, params), span, spanFilter) <==>
      && InInterval(segment.interval, span.startTime)
      && PassesCondition(segment.filterCondition, span, spanFilter)
      && span.projectRowId in ProjectIds(params)
  {
    var stmt := GetStmt(segment, params);
    if segment.interval.start.Some? {
      assert StartsAtOrAfter(segment.interval.start.value) in stmt.clauses;
    }
    if segment.interval.end.Some? {
      assert StartsBefore(segment.interval.end.value) in stmt.clauses;
    }
    if segment.filterCondition.Some? && segment.filterCondition.value != "" {
      assert SatisfiesCondition(segment.filterCondition.value) in stmt.clauses;
    }
    assert ProjectIn(ProjectIds(params)) in stmt.clauses;
  }

  /** An empty filter condition builds the same statement as no condition. */
  lemma EmptyConditionIsNoCondition(interval: TimeInterval, params: set<Param>)
    ensures GetStmt(Segment(interval, Some("")), params) == GetStmt(Segment(interval, None), params)
  {
  }

  /** A missing token count adds nothing to a sum. */
  function Coalesce(v: Option<int>): int
  {
    if v.Some? then v.value else 0
  }

  /** The tokens of one span that count toward a kind. */
  function TokensOf(span: Span, kind: Kind): int
  {
    match kind
    case Prompt => Coalesce(span.promptTokens)
    case Completion => Coalesce(span.completionTokens)
    case Total => Coalesce(span.promptTokens) + Coalesce(span.completionTokens)
  }

  /** The sum, over the spans the statement selects in one project, of their tokens of one kind. */
  function SumTokens(stmt: Statement, spans: seq<Span>, spanFilter: SpanFilter, pid: ProjectRowId, kind: Kind): int
  {
    if spans == [] then 0
    else
      var span := spans[0];
      (if span.projectRowId == pid && Selects(stmt, span, spanFilter) then TokensOf(span, kind) else 0)
      + SumTokens(stmt, spans[1..], spanFilter, pid, kind)
  }

  /** Whether the statement selects at least one span of the project. */
  predicate HasSpans(stmt: Statement, spans: seq<Span>, spanFilter: SpanFilter, pid: ProjectRowId)
  {
    exists k :: 0 <= k < |spans| && spans[k].projectRowId == pid && Selects(stmt, spans[k], spanFilter)
  }

  /** The group of one project: the prompt and completion sums, and their sum as the total. */
  function AggregateRow(stmt: Statement, spans: seq<Span>, spanFilter: SpanFilter, pid: ProjectRowId): Row
  {
    var prompt := SumTokens(stmt, spans, spanFilter, pid, Prompt);
    var completion := SumTokens(stmt, spans, spanFilter, pid, Completion);
    Row(pid, prompt, completion, prompt + completion)
  }

  /** The column of a row that answers a kind. */
  function KindValue(row: Row, kind: Kind): int
  {
    match kind
    case Prompt => row.prompt
    case Completion => row.completion
    case Total => row.total
  }

  /**
   * The rows an engine may return for the statement, in any order: one row per
   * project that has selected spans and no other, each holding that project's
   * aggregates.
   */
  ghost predicate IsResultOf(rows: seq<Row>, stmt: Statement, spans: seq<Span>, spanFilter: SpanFilter)
  {
    && (forall k :: 0 <= k < |rows| ==>
          HasSpans(stmt, spans, spanFilter, rows[k].projectRowId)
          && rows[k] == AggregateRow(stmt, spans, spanFilter, rows[k].projectRowId))
    && (forall k, l :: 0 <= k < l < |rows| ==> rows[k].projectRowId != rows[l].projectRowId)
    && (forall pid :: HasSpans(stmt, spans, spanFilter, pid) ==>
          exists k :: 0 <= k < |rows| && rows[k].projectRowId == pid)
  }

  /** A project with no selected span sums to zero for every kind. */
  lemma {:induction false} NoSpansSumToZero(stmt: Statement, spans: seq<Span>, spanFilter: SpanFilter, pid: ProjectRowId, kind: Kind)
    requires !HasSpans(stmt, spans, spanFilter, pid)
    ensures SumTokens(stmt, spans, spanFilter, pid, kind) == 0
  {
    if spans != [] {
      assert !HasSpans(stmt, spans[1..], spanFilter, pid) by {
        forall k | 0 <= k < |spans[1..]|
          ensures !(spans[1..][k].projectRowId == pid && Selects(stmt, spans[1..][k], spanFilter))
        {
          assert spans[1..][k] == spans[k + 1];
        }
      }
      NoSpansSumToZero(stmt, spans[1..], spanFilter, pid, kind);
    }
  }

  /** The statement's total column equals the sum of the per-span totals. */
  lemma {:induction false} TotalIsPromptPlusCompletion(stmt: Statement, spans: seq<Span>, spanFilter: SpanFilter, pid: ProjectRowId)
    ensures SumTokens(stmt, spans, spanFilter, pid, Total)
         == SumTokens(stmt, spans, spanFilter, pid, Prompt) + SumTokens(stmt, spans, spanFilter, pid, Completion)
  {
    if spans != [] {
      TotalIsPromptPlusCompletion(stmt, spans[1..], spanFilter, pid);
    }
  }

  /** Every column of a project's aggregate row is the sum of that kind over its selected spans. */
  lemma AggregateColumns(stmt: Statement, spans: seq<Span>, spanFilter: SpanFilter, pid: ProjectRowId, kind: Kind)
    ensures KindValue(AggregateRow(stmt, spans, spanFilter, pid), kind) == SumTokens(stmt, spans, spanFilter, pid, kind)
  {
    TotalIsPromptPlusCompletion(stmt, spans, spanFilter, pid);
  }

  /** A span counts toward a key when it is in the key's project, time range and filter. */
  predicate CountsToward(key: Key, span: Span, spanFilter: SpanFilter)
  {
    && span.projectRowId == key.projectRowId
    && (key.timeRange.Some? ==>
          && (key.timeRange.value.start.Some? ==> key.timeRange.value.start.value <= span.startTime)
          && (key.timeRange.value.end.Some? ==> span.startTime < key.timeRange.value.end.value))
    && (key.filterCondition.Some? && key.filterCondition.value != "" ==>
          spanFilter(key.filterCondition.value, span))
  }

  /** The count a key asks for, computed for that key alone. */
  function TokenCount(spans: seq<Span>, spanFilter: SpanFilter, key: Key): int
  {
    if spans == [] then 0
    else
      (if CountsToward(key, spans[0], spanFilter) then TokensOf(spans[0], key.kind) else 0)
      + TokenCount(spans[1..], spanFilter, key)
  }

  /**
   * Within the project of a key, the statement of the key's segment sums
   * exactly the spans the key counts, whatever other projects share it.
   */
  lemma {:induction false} SegmentSumIsTokenCount(key: Key, params: set<Param>, spans: seq<Span>, spanFilter: SpanFilter)
    requires ParamOf(key) in params
    ensures SumTokens(GetStmt(SegmentOf(key), params), spans, spanFilter, key.projectRowId, key.kind)
         == TokenCount(spans, spanFilter, key)
  {
    if spans != [] {
      var stmt := GetStmt(SegmentOf(key), params);
      GetStmtSelects(SegmentOf(key), params, spans[0], spanFilter);
      assert (spans[0].projectRowId == key.projectRowId && Selects(stmt, spans[0], spanFilter))
         == CountsToward(key, spans[0], spanFilter);
      SegmentSumIsTokenCount(key, params, spans[1..], spanFilter);
    }
  }
}
