/**
 * The batch function of the token-count data loader: it groups the
 * positions of a batch of keys by segment and param, runs one statement
 * per segment and fans each returned row out to the positions that asked
 * for that project.
 *
 * The specification functions below take a prefix length `n`: they
 * describe the first `n` keys of the batch (or the first `n` rows of a
 * result), which is what the loops have seen so far.
 */
module TokenCountLoader {
  import opened Wrappers
  import opened TokenCounts
  import opened TokenCountStatement

  /** The engine that runs a statement: its rows, or the failure it ended in. */
  type Engine = Statement -> Result<seq<Row>, QueryError>

  /** For each segment, for each param, the positions of the batch that asked for it. */
  type Arguments = map<Segment, map<Param, seq<nat>>>

  predicate StrictlyIncreasing(ps: seq<nat>)
  {
    forall j, l :: 0 <= j < l < |ps| ==> ps[j] < ps[l]
  }

  /** The positions below `n`, in increasing order, whose key has this segment and param. */
  function Positions(keys: seq<Key>, n: nat, segment: Segment, param: Param): (ps: seq<nat>)
    requires n <= |keys|
  {
    if n == 0 then []
    else
      var ps := Positions(keys, n - 1, segment, param);
      if CacheKeyFn(keys[n - 1]) == (segment, param) then ps + [n - 1] else ps
  }

  /** The positions of a segment and param are increasing, below `n`, and exactly those whose key decomposes to them. */
  lemma {:induction false} PositionsSpec(keys: seq<Key>, n: nat, segment: Segment, param: Param)
    requires n <= |keys|
    ensures var ps := Positions(keys, n, segment, param);
      && StrictlyIncreasing(ps)
      && (forall j :: 0 <= j < |ps| ==> ps[j] < n)
      && (forall i :: 0 <= i < n ==> (i in ps <==> CacheKeyFn(keys[i]) == (segment, param)))
  {
    if n > 0 {
      PositionsSpec(keys, n - 1, segment, param);
    }
  }

  /** The distinct segments of the first `n` keys, in the order of their first key. */
  function SegmentOrder(keys: seq<Key>, n: nat): (order: seq<Segment>)
    requires n <= |keys|
  {
    if n == 0 then []
    else
      var order := SegmentOrder(keys, n - 1);
      if SegmentOf(keys[n - 1]) in order then order else order + [SegmentOf(keys[n - 1])]
  }

  /** The segment order lists each segment of the first `n` keys, and lists it once. */
  lemma {:induction false} SegmentOrderSpec(keys: seq<Key>, n: nat)
    requires n <= |keys|
    ensures var order := SegmentOrder(keys, n);
      && (forall j, l :: 0 <= j < l < |order| ==> order[j] != order[l])
      && (forall i :: 0 <= i < n ==> SegmentOf(keys[i]) in order)
  {
    if n > 0 {
      SegmentOrderSpec(keys, n - 1);
    }
  }

  /** The params asked for under one segment by the first `n` keys. */
  function ParamsOf(keys: seq<Key>, n: nat, segment: Segment): (params: set<Param>)
    requires n <= |keys|
  {
    if n == 0 then {}
    else
      var params := ParamsOf(keys, n - 1, segment);
      if SegmentOf(keys[n - 1]) == segment then params + {ParamOf(keys[n - 1])} else params
  }

  /** Every key among the first `n` contributes its param to the params of its segment. */
  lemma {:induction false} ParamsOfSpec(keys: seq<Key>, n: nat, segment: Segment)
    requires n <= |keys|
    ensures forall i :: 0 <= i < n && SegmentOf(keys[i]) == segment ==> ParamOf(keys[i]) in ParamsOf(keys, n, segment)
  {
    if n > 0 {
      ParamsOfSpec(keys, n - 1, segment);
    }
  }

  /** Every segment of the order is the segment of one of the first `n` keys. */
  lemma {:induction false} SegmentOrderWitness(keys: seq<Key>, n: nat, s: Segment) returns (i: nat)
    requires n <= |keys| && s in SegmentOrder(keys, n)
    ensures i < n && SegmentOf(keys[i]) == s
  {
    if SegmentOf(keys[n - 1]) == s {
      i := n - 1;
    } else {
      i := SegmentOrderWitness(keys, n - 1, s);
    }
  }

  /** Every param asked for under a segment is the param of one of the first `n` keys of that segment. */
  lemma {:induction false} ParamsOfWitness(keys: seq<Key>, n: nat, segment: Segment, p: Param) returns (i: nat)
    requires n <= |keys| && p in ParamsOf(keys, n, segment)
    ensures i < n && CacheKeyFn(keys[i]) == (segment, p)
  {
    if SegmentOf(keys[n - 1]) == segment && ParamOf(keys[n - 1]) == p {
      i := n - 1;
    } else {
      i := ParamsOfWitness(keys, n - 1, segment, p);
    }
  }

  /** A segment none of the first `n` keys has is asked no params. */
  lemma {:induction false} UnseenSegmentHasNoParams(keys: seq<Key>, n: nat, segment: Segment)
    requires n <= |keys| && segment !in SegmentOrder(keys, n)
    ensures ParamsOf(keys, n, segment) == {}
  {
    if n > 0 {
      UnseenSegmentHasNoParams(keys, n - 1, segment);
    }
  }

  /** A param not asked for under a segment by the first `n` keys has no positions there. */
  lemma {:induction false} UnseenParamHasNoPositions(keys: seq<Key>, n: nat, segment: Segment, param: Param)
    requires n <= |keys| && param !in ParamsOf(keys, n, segment)
    ensures Positions(keys, n, segment, param) == []
  {
    if n > 0 {
      assert param !in ParamsOf(keys, n - 1, segment);
      UnseenParamHasNoPositions(keys, n - 1, segment, param);
    }
  }

  /** The grouping of the first `n` keys: exactly their segments, their params, and the positions of each. */
  ghost predicate IsGrouping(keys: seq<Key>, n: nat, arguments: Arguments)
    requires n <= |keys|
  {
    && (forall s :: s in arguments <==> s in SegmentOrder(keys, n))
    && (forall s :: s in arguments ==> arguments[s].Keys == ParamsOf(keys, n, s))
    && (forall s, p :: s in arguments && p in arguments[s] ==> arguments[s][p] == Positions(keys, n, s, p))
  }

  /** The grouping after appending `position` to the list of (segment, param); missing entries start empty. */
  function Append(arguments: Arguments, segment: Segment, param: Param, position: nat): Arguments
  {
    var params := if segment in arguments then arguments[segment] else map[];
    var bucket := if param in params then params[param] else [];
    arguments[segment := params[param := bucket + [position]]]
  }

  /** The grouping of the first `n` keys: each position appended, in order, to the list of its segment and param. */
  function Group(keys: seq<Key>, n: nat): Arguments
    requires n <= |keys|
  {
    if n == 0 then map[] else Append(Group(keys, n - 1), SegmentOf(keys[n - 1]), ParamOf(keys[n - 1]), n - 1)
  }

  /** A segment has an entry in the grouping exactly when one of the first `n` keys has it, with the params asked under it. */
  lemma {:induction false} GroupDomain(keys: seq<Key>, n: nat, segment: Segment)
    requires n <= |keys|
    ensures segment in Group(keys, n) <==> segment in SegmentOrder(keys, n)
    ensures segment in Group(keys, n) ==> Group(keys, n)[segment].Keys == ParamsOf(keys, n, segment)
  {
    if n > 0 {
      GroupDomain(keys, n - 1, segment);
      if segment !in Group(keys, n - 1) {
        UnseenSegmentHasNoParams(keys, n - 1, segment);
      }
    }
  }

  /** The list of a segment and param in the grouping holds exactly its positions, in order. */
  lemma {:induction false} GroupBucket(keys: seq<Key>, n: nat, segment: Segment, param: Param)
    requires n <= |keys|
    ensures segment in Group(keys, n) && param in Group(keys, n)[segment] ==>
      Group(keys, n)[segment][param] == Positions(keys, n, segment, param)
  {
    if n > 0 {
      GroupBucket(keys, n - 1, segment, param);
      GroupDomain(keys, n - 1, segment);
      if segment !in Group(keys, n - 1) {
        UnseenSegmentHasNoParams(keys, n - 1, segment);
        UnseenParamHasNoPositions(keys, n - 1, segment, param);
      } else if param !in Group(keys, n - 1)[segment] {
        UnseenParamHasNoPositions(keys, n - 1, segment, param);
      }
    }
  }

  /** Appending every position in turn yields exactly the segments, params and positions of the keys. */
  lemma GroupIsGrouping(keys: seq<Key>, n: nat)
    requires n <= |keys|
    ensures IsGrouping(keys, n, Group(keys, n))
  {
    forall s: Segment
      ensures s in Group(keys, n) <==> s in SegmentOrder(keys, n)
      ensures s in Group(keys, n) ==> Group(keys, n)[s].Keys == ParamsOf(keys, n, s)
    {
      GroupDomain(keys, n, s);
    }
    forall s, p | s in Group(keys, n) && p in Group(keys, n)[s]
      ensures Group(keys, n)[s][p] == Positions(keys, n, s, p)
    {
      GroupBucket(keys, n, s, p);
    }
  }

  /** The grouping loop: appends each position to the list of its segment and param. */
  method GroupPositions(keys: seq<Key>) returns (arguments: Arguments, order: seq<Segment>)
    ensures arguments == Group(keys, |keys|)
    ensures order == SegmentOrder(keys, |keys|)
  {
    // `order` is the insertion order of the segments in `arguments`.
    arguments, order := map[], [];
    for position := 0 to |keys|
      invariant arguments == Group(keys, position)
      invariant order == SegmentOrder(keys, position)
    {
      var (segment, param) := CacheKeyFn(keys[position]);
      GroupDomain(keys, position, segment);
      if segment !in arguments {
        order := order + [segment];
      }
      arguments := Append(arguments, segment, param, position);
    }
  }

  /** Every position of the batch is in the list of its own segment and param. */
  lemma EveryPositionIsGrouped(keys: seq<Key>, arguments: Arguments)
    requires IsGrouping(keys, |keys|, arguments)
    ensures forall i :: 0 <= i < |keys| ==>
      && SegmentOf(keys[i]) in arguments
      && ParamOf(keys[i]) in arguments[SegmentOf(keys[i])]
      && i in arguments[SegmentOf(keys[i])][ParamOf(keys[i])]
  {
    forall i | 0 <= i < |keys|
      ensures SegmentOf(keys[i]) in arguments && ParamOf(keys[i]) in arguments[SegmentOf(keys[i])]
      ensures i in arguments[SegmentOf(keys[i])][ParamOf(keys[i])]
    {
      PositionIsGrouped(keys, arguments, i);
    }
  }

  /** Each list of the grouping holds only positions of its own segment and param. */
  lemma GroupedPositionsBelong(keys: seq<Key>, arguments: Arguments)
    requires IsGrouping(keys, |keys|, arguments)
    ensures forall s, p, i :: s in arguments && p in arguments[s] && i in arguments[s][p] ==>
      0 <= i < |keys| && SegmentOf(keys[i]) == s && ParamOf(keys[i]) == p
  {
    forall s, p, i {:trigger i in arguments[s][p]} | s in arguments && p in arguments[s] && i in arguments[s][p]
      ensures 0 <= i < |keys| && SegmentOf(keys[i]) == s && ParamOf(keys[i]) == p
    {
      GroupedPositionBelongs(keys, arguments, s, p, i);
    }
  }

  /** Each list of the grouping is non-empty and in increasing position order. */
  lemma BucketsAreIncreasing(keys: seq<Key>, arguments: Arguments)
    requires IsGrouping(keys, |keys|, arguments)
    ensures forall s, p :: s in arguments && p in arguments[s] ==>
      arguments[s][p] != [] && StrictlyIncreasing(arguments[s][p])
  {
    forall s, p | s in arguments && p in arguments[s]
      ensures arguments[s][p] != [] && StrictlyIncreasing(arguments[s][p])
    {
      BucketIsIncreasing(keys, arguments, s, p);
    }
  }

  lemma BucketIsIncreasing(keys: seq<Key>, arguments: Arguments, s: Segment, p: Param)
    requires IsGrouping(keys, |keys|, arguments) && s in arguments && p in arguments[s]
    ensures arguments[s][p] != [] && StrictlyIncreasing(arguments[s][p])
  {
    PositionsSpec(keys, |keys|, s, p);
    var i := ParamsOfWitness(keys, |keys|, s, p);
    assert i in Positions(keys, |keys|, s, p);
  }

  lemma PositionIsGrouped(keys: seq<Key>, arguments: Arguments, i: nat)
    requires IsGrouping(keys, |keys|, arguments) && i < |keys|
    ensures SegmentOf(keys[i]) in arguments && ParamOf(keys[i]) in arguments[SegmentOf(keys[i])]
    ensures i in arguments[SegmentOf(keys[i])][ParamOf(keys[i])]
  {
    var (s, p) := CacheKeyFn(keys[i]);
    SegmentOrderSpec(keys, |keys|);
    ParamsOfSpec(keys, |keys|, s);
    PositionsSpec(keys, |keys|, s, p);
  }

  lemma GroupedPositionBelongs(keys: seq<Key>, arguments: Arguments, s: Segment, p: Param, i: nat)
    requires IsGrouping(keys, |keys|, arguments) && s in arguments && p in arguments[s] && i in arguments[s][p]
    ensures i < |keys| && SegmentOf(keys[i]) == s && ParamOf(keys[i]) == p
  {
    PositionsSpec(keys, |keys|, s, p);
    var ps := Positions(keys, |keys|, s, p);
    var j :| 0 <= j < |ps| && ps[j] == i;
    assert CacheKeyFn(keys[i]) == (s, p);
  }

  /** A list of the grouping, or the empty list where the dictionary has no entry. */
  function Lookup(params: map<Param, seq<nat>>, param: Param): seq<nat>
  {
    if param in params then params[param] else []
  }

  /** No position is in the lists of two different params. */
  predicate DisjointBuckets(params: map<Param, seq<nat>>)
  {
    forall p, q, i :: p in params && q in params && i in params[p] && i in params[q] ==> p == q
  }

  /** The lists of one segment are disjoint and hold only positions of the batch. */
  lemma SegmentBuckets(keys: seq<Key>, arguments: Arguments, segment: Segment)
    requires IsGrouping(keys, |keys|, arguments) && segment in arguments
    ensures DisjointBuckets(arguments[segment])
    ensures forall p, j :: p in arguments[segment] && 0 <= j < |arguments[segment][p]| ==>
      arguments[segment][p][j] < |keys|
  {
    var params := arguments[segment];
    forall p, q, i | p in params && q in params && i in params[p] && i in params[q]
      ensures p == q
    {
      PositionsSpec(keys, |keys|, segment, p);
      PositionsSpec(keys, |keys|, segment, q);
    }
    forall p, j | p in params && 0 <= j < |params[p]|
      ensures params[p][j] < |keys|
    {
      PositionsSpec(keys, |keys|, segment, p);
    }
  }

  /** A position is in one list of its own segment and in no list of another segment. */
  lemma PositionInSegment(keys: seq<Key>, arguments: Arguments, segment: Segment, i: int)
    requires IsGrouping(keys, |keys|, arguments) && segment in arguments && 0 <= i < |keys|
    ensures SegmentOf(keys[i]) == segment ==>
      ParamOf(keys[i]) in arguments[segment] && i in arguments[segment][ParamOf(keys[i])]
    ensures SegmentOf(keys[i]) != segment ==>
      forall p :: p in arguments[segment] ==> i !in arguments[segment][p]
  {
    if SegmentOf(keys[i]) == segment {
      ParamsOfSpec(keys, |keys|, segment);
      PositionsSpec(keys, |keys|, segment, ParamOf(keys[i]));
    } else {
      forall p | p in arguments[segment]
        ensures i !in arguments[segment][p]
      {
        PositionsSpec(keys, |keys|, segment, p);
      }
    }
  }

  /** The statement run for one segment of the batch. */
  function StatementFor(keys: seq<Key>, segment: Segment): Statement
  {
    GetStmt(segment, ParamsOf(keys, |keys|, segment))
  }

  /** The statement of a segment is restricted to exactly the projects asked for under it. */
  lemma StatementRestriction(keys: seq<Key>, segment: Segment, pid: ProjectRowId)
    ensures var stmt := StatementFor(keys, segment);
      stmt.clauses[|stmt.clauses| - 1] == ProjectIn(ProjectIds(ParamsOf(keys, |keys|, segment)))
    ensures pid in ProjectIds(ParamsOf(keys, |keys|, segment)) <==>
      exists i :: 0 <= i < |keys| && SegmentOf(keys[i]) == segment && keys[i].projectRowId == pid
  {
    ParamsOfSpec(keys, |keys|, segment);
    if pid in ProjectIds(ParamsOf(keys, |keys|, segment)) {
      var p := ProjectIdsWitness(ParamsOf(keys, |keys|, segment), pid);
      var i := ParamsOfWitness(keys, |keys|, segment, p);
      assert SegmentOf(keys[i]) == segment && keys[i].projectRowId == pid;
    }
  }

  /** Row `k` is the last of the first `n` rows that belongs to the project. */
  predicate IsLastRowOf(rows: seq<Row>, n: nat, pid: ProjectRowId, k: int)
    requires n <= |rows|
  {
    0 <= k < n && rows[k].projectRowId == pid &&
    forall l :: k < l < n ==> rows[l].projectRowId != pid
  }

  /** The value the fan-out of the first `n` rows leaves for a param: the last row of its project wins. */
  function FannedOutValue(rows: seq<Row>, n: nat, param: Param, default: int): (v: int)
    requires n <= |rows|
    ensures (forall k :: 0 <= k < n ==> rows[k].projectRowId != param.projectRowId) ==> v == default
    ensures forall k {:trigger IsLastRowOf(rows, n, param.projectRowId, k)} ::
      IsLastRowOf(rows, n, param.projectRowId, k) ==> v == KindValue(rows[k], param.kind)
  {
    if n == 0 then default
    else if rows[n - 1].projectRowId == param.projectRowId then KindValue(rows[n - 1], param.kind)
    else
      assert forall k {:trigger IsLastRowOf(rows, n, param.projectRowId, k)} ::
        IsLastRowOf(rows, n, param.projectRowId, k) ==> IsLastRowOf(rows, n - 1, param.projectRowId, k);
      FannedOutValue(rows, n - 1, param, default)
  }

  /** What the batch gives one key: the fanned-out value of its segment's rows, else the default. */
  function Answer(db: Engine, keys: seq<Key>, key: Key): int
  {
    match db(StatementFor(keys, SegmentOf(key)))
    case Success(rows) => FannedOutValue(rows, |rows|, ParamOf(key), DefaultValue)
    case Failure(_) => DefaultValue
  }

  /** Overwrites every listed position with the value. */
  method WriteAll(results: array<int>, positions: seq<nat>, value: int)
    requires forall j :: 0 <= j < |positions| ==> positions[j] < results.Length
    modifies results
    ensures forall i :: 0 <= i < results.Length ==>
      results[i] == if i in positions then value else old(results[i])
  {
    for j := 0 to |positions|
      invariant forall i :: 0 <= i < results.Length ==>
        results[i] == if i in positions[..j] then value else old(results[i])
    {
      results[positions[j]] := value;
      assert positions[..j + 1] == positions[..j] + [positions[j]];
    }
    assert positions[..|positions|] == positions;
  }

  /**
   * Fans one row out: the positions asking for its project's prompt,
   * completion and total get the matching column; the rest are unchanged.
   */
  method FanOutRow(results: array<int>, params: map<Param, seq<nat>>, row: Row)
    requires forall p, j :: p in params && 0 <= j < |params[p]| ==> params[p][j] < results.Length
    modifies results
    ensures forall i :: 0 <= i < results.Length ==>
      results[i] == (
        if i in Lookup(params, Param(row.projectRowId, Total)) then row.total
        else if i in Lookup(params, Param(row.projectRowId, Completion)) then row.completion
        else if i in Lookup(params, Param(row.projectRowId, Prompt)) then row.prompt
        else old(results[i]))
  {
    WriteAll(results, Lookup(params, Param(row.projectRowId, Prompt)), row.prompt);
    WriteAll(results, Lookup(params, Param(row.projectRowId, Completion)), row.completion);
    WriteAll(results, Lookup(params, Param(row.projectRowId, Total)), row.total);
  }

  /**
   * Fans the rows of one segment out: a position in the list of a param ends
   * with the value of the last row of that param's project, and keeps its
   * old value when there is none; positions in no list are unchanged.
   */
  method FanOutSegment(results: array<int>, params: map<Param, seq<nat>>, rows: seq<Row>)
    requires forall p, j :: p in params && 0 <= j < |params[p]| ==> params[p][j] < results.Length
    requires DisjointBuckets(params)
    modifies results
    ensures forall p, i :: p in params && i in params[p] ==>
      results[i] == FannedOutValue(rows, |rows|, p, old(results[i]))
    ensures forall i :: 0 <= i < results.Length && (forall p :: p in params ==> i !in params[p]) ==>
      results[i] == old(results[i])
  {
    for k := 0 to |rows|
      invariant forall p, i :: p in params && i in params[p] ==>
        results[i] == FannedOutValue(rows, k, p, old(results[i]))
      invariant forall i :: 0 <= i < results.Length && (forall p :: p in params ==> i !in params[p]) ==>
        results[i] == old(results[i])
    {
      ghost var before := results[..];
      FanOutRow(results, params, rows[k]);
      forall p, i | p in params && i in params[p]
        ensures results[i] == FannedOutValue(rows, k + 1, p, old(results[i]))
      {
        assert results[i] == (if p.projectRowId == rows[k].projectRowId then KindValue(rows[k], p.kind) else before[i]);
      }
    }
  }

  /** The statements the batch runs: one per distinct segment, in the order the segments first occur. */
  function Statements(keys: seq<Key>): (stmts: seq<Statement>)
  {
    var order := SegmentOrder(keys, |keys|);
    seq(|order|, m requires 0 <= m < |order| => StatementFor(keys, order[m]))
  }

  /** A segment of the order does not occur before its own place in it. */
  lemma FirstOccurrence(keys: seq<Key>, j: nat)
    requires j < |SegmentOrder(keys, |keys|)|
    ensures SegmentOrder(keys, |keys|)[j] !in SegmentOrder(keys, |keys|)[..j]
  {
    SegmentOrderSpec(keys, |keys|);
  }

  /** The facts the batch function needs about the `j`-th segment of the order. */
  lemma NextSegment(keys: seq<Key>, arguments: Arguments, j: nat)
    requires arguments == Group(keys, |keys|) && j < |SegmentOrder(keys, |keys|)|
    ensures var order, stmts := SegmentOrder(keys, |keys|), Statements(keys);
      && order[j] in arguments
      && order[j] !in order[..j]
      && order[..j + 1] == order[..j] + [order[j]]
      && j < |stmts|
      && stmts[j] == GetStmt(order[j], arguments[order[j]].Keys)
      && stmts[..j + 1] == stmts[..j] + [stmts[j]]
  {
    var order, stmts := SegmentOrder(keys, |keys|), Statements(keys);
    GroupDomain(keys, |keys|, order[j]);
    FirstOccurrence(keys, j);
    assert order[..j + 1] == order[..j] + [order[j]];
    assert stmts[..j + 1] == stmts[..j] + [stmts[j]];
  }

  /** Exactly one statement is run per distinct segment of the batch, restricted to that segment's projects. */
  lemma OneStatementPerSegment(keys: seq<Key>)
    ensures var order := SegmentOrder(keys, |keys|);
      && |Statements(keys)| == |order|
      && (forall i :: 0 <= i < |keys| ==> SegmentOf(keys[i]) in order)
      && (forall m, l :: 0 <= m < l < |order| ==> order[m] != order[l])
      && (forall m :: 0 <= m < |order| ==> Statements(keys)[m] == GetStmt(order[m], ParamsOf(keys, |keys|, order[m])))
  {
    SegmentOrderSpec(keys, |keys|);
  }

  /** Where a run of statements stands: still running, or stopped at the statement that failed. */
  datatype RunState = Running | Stopped(at: nat, error: QueryError)

  /** The state of a run after the first `j` statements; it stops at the first failure and runs nothing after it. */
  function RunAfter(db: Engine, stmts: seq<Statement>, j: nat): (run: RunState)
    requires j <= |stmts|
    ensures run.Stopped? ==> run.at < j
  {
    if j == 0 then Running
    else match RunAfter(db, stmts, j - 1)
      case Stopped(at, error) => Stopped(at, error)
      case Running => if db(stmts[j - 1]).Failure? then Stopped(j - 1, db(stmts[j - 1]).error) else Running
  }

  /** A run is still going after `j` statements exactly when each of them succeeded. */
  lemma {:induction false} RunningIffAllSucceeded(db: Engine, stmts: seq<Statement>, j: nat)
    requires j <= |stmts|
    ensures RunAfter(db, stmts, j) == Running <==> forall m :: 0 <= m < j ==> db(stmts[m]).Success?
  {
    if j > 0 {
      RunningIffAllSucceeded(db, stmts, j - 1);
    }
  }

  /** A run that stopped did so at the first failing statement, with that statement's error. */
  lemma {:induction false} StoppedAtFirstFailure(db: Engine, stmts: seq<Statement>, j: nat)
    requires j <= |stmts| && RunAfter(db, stmts, j).Stopped?
    ensures var run := RunAfter(db, stmts, j);
      && run.at < j
      && db(stmts[run.at]) == Failure(run.error)
      && forall m :: 0 <= m < run.at ==> db(stmts[m]).Success?
  {
    if RunAfter(db, stmts, j - 1).Stopped? {
      StoppedAtFirstFailure(db, stmts, j - 1);
    } else {
      RunningIffAllSucceeded(db, stmts, j - 1);
    }
  }

  /** Once stopped, a run stays stopped where it was. */
  lemma {:induction false} StaysStopped(db: Engine, stmts: seq<Statement>, j: nat, k: nat)
    requires j <= k <= |stmts| && RunAfter(db, stmts, j).Stopped?
    ensures RunAfter(db, stmts, k) == RunAfter(db, stmts, j)
    decreases k - j
  {
    if j < k {
      StaysStopped(db, stmts, j, k - 1);
    }
  }

  /** A run that reaches a failing statement stops there for good, with that statement's error. */
  lemma FailureStopsRun(db: Engine, stmts: seq<Statement>, j: nat)
    requires j < |stmts| && RunAfter(db, stmts, j) == Running && db(stmts[j]).Failure?
    ensures RunAfter(db, stmts, |stmts|) == Stopped(j, db(stmts[j]).error)
    ensures stmts[..RunAfter(db, stmts, |stmts|).at + 1] == stmts[..j + 1]
  {
    StaysStopped(db, stmts, j + 1, |stmts|);
  }

  /** The values of the batch once the segments in `done` are fanned out: their keys' answers, the default elsewhere. */
  function Filled(db: Engine, keys: seq<Key>, done: seq<Segment>): (values: seq<int>)
  {
    seq(|keys|, i requires 0 <= i < |keys| =>
      if SegmentOf(keys[i]) in done then Answer(db, keys, keys[i]) else DefaultValue)
  }

  /** What a successful batch returns: each key's answer, at its position. */
  function Answers(db: Engine, keys: seq<Key>): (values: seq<int>)
  {
    seq(|keys|, i requires 0 <= i < |keys| => Answer(db, keys, keys[i]))
  }

  /** Before any segment is fanned out every position holds the default; after all of them, every answer. */
  lemma FilledBounds(db: Engine, keys: seq<Key>)
    ensures Filled(db, keys, []) == seq(|keys|, _ => DefaultValue)
    ensures Filled(db, keys, SegmentOrder(keys, |keys|)) == Answers(db, keys)
  {
    SegmentOrderSpec(keys, |keys|);
    assert forall i :: 0 <= i < |keys| ==> Filled(db, keys, SegmentOrder(keys, |keys|))[i] == Answers(db, keys)[i];
  }

  /** Keys that decompose alike get the same answer, so duplicate keys in a batch get equal values. */
  lemma DuplicateKeysAgree(db: Engine, keys: seq<Key>, i: int, j: int)
    requires 0 <= i < |keys| && 0 <= j < |keys| && CacheKeyFn(keys[i]) == CacheKeyFn(keys[j])
    ensures Answers(db, keys)[i] == Answers(db, keys)[j]
  {
  }

  /** A project for which its segment's statement returns no row gets the default value, not an error. */
  lemma ProjectWithoutRowsGetsDefault(db: Engine, keys: seq<Key>, key: Key)
    requires db(StatementFor(keys, SegmentOf(key))).Success?
    requires var rows := db(StatementFor(keys, SegmentOf(key))).value;
      forall k :: 0 <= k < |rows| ==> rows[k].projectRowId != key.projectRowId
    ensures Answer(db, keys, key) == DefaultValue
  {
  }

  /**
   * Fanning out one segment's rows turns the values for the segments in
   * `done` into the values for `done` and that segment.
   */
  lemma FanOutBatchStep(keys: seq<Key>, arguments: Arguments, db: Engine, done: seq<Segment>, segment: Segment,
                        rows: seq<Row>, before: seq<int>, after: seq<int>)
    requires IsGrouping(keys, |keys|, arguments) && segment in arguments && segment !in done
    requires db(StatementFor(keys, segment)) == Success(rows)
    requires before == Filled(db, keys, done) && |after| == |keys|
    requires forall p, i :: 0 <= i < |keys| && p in arguments[segment] && i in arguments[segment][p] ==>
      after[i] == FannedOutValue(rows, |rows|, p, before[i])
    requires forall i :: 0 <= i < |keys| && (forall p :: p in arguments[segment] ==> i !in arguments[segment][p]) ==>
      after[i] == before[i]
    ensures after == Filled(db, keys, done + [segment])
  {
    forall i | 0 <= i < |keys|
      ensures after[i] == Filled(db, keys, done + [segment])[i]
    {
      PositionInSegment(keys, arguments, segment, i);
      if SegmentOf(keys[i]) == segment {
        assert after[i] == FannedOutValue(rows, |rows|, ParamOf(keys[i]), before[i]);
        assert before[i] == DefaultValue;
      } else {
        assert after[i] == before[i];
      }
    }
  }

  /**
   * Fans the rows of one more segment out into the results of the batch:
   * afterwards the positions of that segment hold their answers too, and
   * all other positions are unchanged.
   */
  method FanOutBatchSegment(results: array<int>, keys: seq<Key>, arguments: Arguments, db: Engine,
                            done: seq<Segment>, segment: Segment, rows: seq<Row>)
    requires results.Length == |keys| && arguments == Group(keys, |keys|)
    requires segment in arguments && segment !in done
    requires db(StatementFor(keys, segment)) == Success(rows)
    requires results[..] == Filled(db, keys, done)
    modifies results
    ensures results[..] == Filled(db, keys, done + [segment])
  {
    GroupIsGrouping(keys, |keys|);
    SegmentBuckets(keys, arguments, segment);
    ghost var before := results[..];
    FanOutSegment(results, arguments[segment], rows);
    FanOutBatchStep(keys, arguments, db, done, segment, rows, before, results[..]);
  }

  /**
   * The batch function. It runs the statement of each distinct segment once,
   * in the order the segments first occur, and stops at the first statement
   * that fails, which fails the whole batch; otherwise every position holds
   * its key's answer.
   */
  method LoadFn(keys: seq<Key>, db: Engine) returns (r: Result<seq<int>, QueryError>, ghost executed: seq<Statement>)
    ensures var run := RunAfter(db, Statements(keys), |Statements(keys)|);
      && (run.Running? ==> r == Success(Answers(db, keys)))
      && (run.Stopped? ==> r == Failure(run.error))
    ensures var stmts := Statements(keys);
      var run := RunAfter(db, stmts, |stmts|);
      && (run.Running? ==> executed == stmts)
      && (run.Stopped? ==> executed == stmts[..run.at + 1])
  {
    var results := new int[|keys|](_ => DefaultValue);
    var arguments, order := GroupPositions(keys);
    ghost var stmts := Statements(keys);
    FilledBounds(db, keys);
    executed := [];
    var j := 0;
    while j < |order|
      invariant j <= |order| && executed == stmts[..j]
      invariant RunAfter(db, stmts, j) == Running
      invariant results[..] == Filled(db, keys, order[..j])
    {
      NextSegment(keys, arguments, j);
      var segment := order[j];
      var stmt := GetStmt(segment, arguments[segment].Keys);
      executed := executed + [stmt];
      var data := db(stmt);
      if data.Failure? {
        FailureStopsRun(db, stmts, j);
        r := Failure(data.error);
        return;
      }
      FanOutBatchSegment(results, keys, arguments, db, order[..j], segment, data.value);
      j := j + 1;
    }
    assert order[..j] == order && executed == stmts;
    r := Success(results[..]);
  }

  /** The batch succeeds exactly when the statement of every segment succeeds. */
  lemma LoadSucceedsIffEveryStatementSucceeds(keys: seq<Key>, db: Engine)
    ensures RunAfter(db, Statements(keys), |Statements(keys)|) == Running <==>
      forall s :: s in SegmentOrder(keys, |keys|) ==> db(StatementFor(keys, s)).Success?
  {
    var stmts := Statements(keys);
    RunningIffAllSucceeded(db, stmts, |stmts|);
    if forall m :: 0 <= m < |stmts| ==> db(stmts[m]).Success? {
      forall s | s in SegmentOrder(keys, |keys|)
        ensures db(StatementFor(keys, s)).Success?
      {
        var m :| 0 <= m < |stmts| && SegmentOrder(keys, |keys|)[m] == s;
        assert stmts[m] == StatementFor(keys, s);
      }
    }
    if forall s :: s in SegmentOrder(keys, |keys|) ==> db(StatementFor(keys, s)).Success? {
      forall m | 0 <= m < |stmts|
        ensures db(stmts[m]).Success?
      {
        assert SegmentOrder(keys, |keys|)[m] in SegmentOrder(keys, |keys|);
      }
    }
  }

  /** A failed batch fails with the error of the first segment, in order, whose statement failed. */
  lemma LoadFailsWithFirstError(keys: seq<Key>, db: Engine)
    requires RunAfter(db, Statements(keys), |Statements(keys)|).Stopped?
    ensures var order := SegmentOrder(keys, |keys|);
      var run := RunAfter(db, Statements(keys), |Statements(keys)|);
      && run.at < |order|
      && db(StatementFor(keys, order[run.at])) == Failure(run.error)
      && forall m :: 0 <= m < run.at ==> db(StatementFor(keys, order[m])).Success?
  {
    var stmts := Statements(keys);
    StoppedAtFirstFailure(db, stmts, |stmts|);
    var order := SegmentOrder(keys, |keys|);
    forall m | 0 <= m < RunAfter(db, stmts, |stmts|).at
      ensures db(StatementFor(keys, order[m])).Success?
    {
      assert stmts[m] == StatementFor(keys, order[m]);
    }
  }

  /** Under an engine that returns the statement's rows, the last row of a project is its aggregate. */
  lemma {:induction false} FannedOutValueOfResult(rows: seq<Row>, stmt: Statement, spans: seq<Span>, spanFilter: SpanFilter, param: Param)
    requires IsResultOf(rows, stmt, spans, spanFilter)
    ensures FannedOutValue(rows, |rows|, param, DefaultValue) == SumTokens(stmt, spans, spanFilter, param.projectRowId, param.kind)
  {
    if k :| 0 <= k < |rows| && rows[k].projectRowId == param.projectRowId {
      assert IsLastRowOf(rows, |rows|, param.projectRowId, k);
      AggregateColumns(stmt, spans, spanFilter, param.projectRowId, param.kind);
    } else {
      NoSpansSumToZero(stmt, spans, spanFilter, param.projectRowId, param.kind);
    }
  }

  /**
   * Answering a key as part of a batch gives the count of that key alone:
   * neither the other projects sharing its statement nor the other kinds
   * asked for change it, and a project without spans gets zero.
   */
  lemma BatchAnswerIsTokenCount(keys: seq<Key>, db: Engine, spans: seq<Span>, spanFilter: SpanFilter, i: int)
    requires 0 <= i < |keys|
    requires db(StatementFor(keys, SegmentOf(keys[i]))).Success?
    requires IsResultOf(db(StatementFor(keys, SegmentOf(keys[i]))).value, StatementFor(keys, SegmentOf(keys[i])), spans, spanFilter)
    ensures Answer(db, keys, keys[i]) == TokenCount(spans, spanFilter, keys[i])
  {
    var stmt := StatementFor(keys, SegmentOf(keys[i]));
    FannedOutValueOfResult(db(stmt).value, stmt, spans, spanFilter, ParamOf(keys[i]));
    ParamsOfSpec(keys, |keys|, SegmentOf(keys[i]));
    SegmentSumIsTokenCount(keys[i], ParamsOf(keys, |keys|, SegmentOf(keys[i])), spans, spanFilter);
  }
}
