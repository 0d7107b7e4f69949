/**
 * The keys of the token-count loader and their two decompositions:
 * (Segment, Param) decides how a batch is grouped into statements, and
 * (Section, SubKey) is how the two-tier cache addresses an entry.
 */
module TokenCounts {
  import opened Wrappers

  /** Which of the three token counts a key asks for. */
  datatype Kind = Prompt | Completion | Total

  type ProjectRowId = int

  /** A point in time; timestamps are compared as integers. */
  type Timestamp = int

  /** The time range a caller may attach to a key; either bound may be missing. */
  datatype TimeRange = TimeRange(start: Option<Timestamp>, end: Option<Timestamp>)

  /** The (start, end) pair a key's time range is reduced to. */
  datatype TimeInterval = TimeInterval(start: Option<Timestamp>, end: Option<Timestamp>)

  /** A span-filter expression, compiled outside this model. */
  type FilterCondition = Option<string>

  datatype Key = Key(
    kind: Kind,
    projectRowId: ProjectRowId,
    timeRange: Option<TimeRange>,
    filterCondition: FilterCondition)

  /** What decides which statement answers a key. */
  datatype Segment = Segment(interval: TimeInterval, filterCondition: FilterCondition)

  /** What decides which row and which column of that statement answer a key. */
  datatype Param = Param(projectRowId: ProjectRowId, kind: Kind)

  /** The cache's section is the project; the sub-key is everything else. */
  type Section = ProjectRowId

  datatype SubKey = SubKey(interval: TimeInterval, filterCondition: FilterCondition, kind: Kind)

  /** The count of a key that no row answers. */
  const DefaultValue: int := 0

  /** Configuration of the token-count cache: sections kept, their lifetime in seconds, sub-keys per section. */
  const MainCacheMaxSize: nat := 64
  const MainCacheTtlSeconds: nat := 3600
  const SubCacheMaxSize: nat := 2 * 2 * 3

  /** The interval of a key: a missing time range is the unbounded interval. */
  function IntervalOf(timeRange: Option<TimeRange>): TimeInterval
  {
    match timeRange
    case Some(TimeRange(start, end)) => TimeInterval(start, end)
    case None => TimeInterval(None, None)
  }

  /** Splits a key into the segment it is batched under and the param that picks its value. */
  function CacheKeyFn(key: Key): (r: (Segment, Param))
    ensures r.1.projectRowId == key.projectRowId && r.1.kind == key.kind
    ensures r.0.filterCondition == key.filterCondition
    ensures key.timeRange.None? ==> r.0.interval == TimeInterval(None, None)
    ensures key.timeRange.Some? ==>
      r.0.interval.start == key.timeRange.value.start && r.0.interval.end == key.timeRange.value.end
  {
    (Segment(IntervalOf(key.timeRange), key.filterCondition), Param(key.projectRowId, key.kind))
  }

  function SegmentOf(key: Key): Segment
  {
    CacheKeyFn(key).0
  }

  function ParamOf(key: Key): Param
  {
    CacheKeyFn(key).1
  }

  /** A key that decomposes to the given segment and param. */
  function KeyFor(segment: Segment, param: Param): Key
  {
    Key(param.kind, param.projectRowId,
        Some(TimeRange(segment.interval.start, segment.interval.end)),
        segment.filterCondition)
  }

  /** Every (segment, param) pair is the decomposition of some key. */
  lemma DecompositionIsOnto(segment: Segment, param: Param)
    ensures CacheKeyFn(KeyFor(segment, param)) == (segment, param)
  {
  }

  /**
   * Two keys decompose alike exactly when they agree on kind, project and
   * filter condition and their time ranges have the same bounds.
   */
  lemma SameDecomposition(k1: Key, k2: Key)
    ensures CacheKeyFn(k1) == CacheKeyFn(k2) <==>
      && k1.kind == k2.kind
      && k1.projectRowId == k2.projectRowId
      && k1.filterCondition == k2.filterCondition
      && IntervalOf(k1.timeRange) == IntervalOf(k2.timeRange)
  {
  }

  /** A key without a time range is grouped with the same key over the unbounded range. */
  lemma MissingRangeIsUnbounded(key: Key)
    ensures CacheKeyFn(key.(timeRange := None)) == CacheKeyFn(key.(timeRange := Some(TimeRange(None, None))))
  {
  }

  /** Rebuilds (segment, param) from a cache address. */
  function SplitOf(section: Section, subKey: SubKey): (Segment, Param)
  {
    (Segment(subKey.interval, subKey.filterCondition), Param(section, subKey.kind))
  }

  /** Turns (segment, param) into a cache address. */
  function AddressOf(segment: Segment, param: Param): (Section, SubKey)
  {
    (param.projectRowId, SubKey(segment.interval, segment.filterCondition, param.kind))
  }

  /** The cache address of a key: its project and the remaining three components. */
  function CacheKey(key: Key): (r: (Section, SubKey))
    ensures SplitOf(r.0, r.1) == CacheKeyFn(key)
    ensures r.0 == key.projectRowId
  {
    AddressOf(CacheKeyFn(key).0, CacheKeyFn(key).1)
  }

  /** The two decompositions carry the same information: each is recovered from the other. */
  lemma AddressRoundTrips(segment: Segment, param: Param, section: Section, subKey: SubKey)
    ensures SplitOf(AddressOf(segment, param).0, AddressOf(segment, param).1) == (segment, param)
    ensures AddressOf(SplitOf(section, subKey).0, SplitOf(section, subKey).1) == (section, subKey)
  {
  }

  /** Two keys share a cache address exactly when they share a segment and a param. */
  lemma {:induction false} CacheKeyAgreesWithSplit(k1: Key, k2: Key)
    ensures CacheKey(k1) == CacheKey(k2) <==> CacheKeyFn(k1) == CacheKeyFn(k2)
  {
    var a1, a2 := CacheKey(k1), CacheKey(k2);
    if CacheKeyFn(k1) == CacheKeyFn(k2) {
      assert AddressOf(CacheKeyFn(k1).0, CacheKeyFn(k1).1) == a1;
      assert AddressOf(CacheKeyFn(k2).0, CacheKeyFn(k2).1) == a2;
    }
    if a1 == a2 {
      assert SplitOf(a1.0, a1.1) == CacheKeyFn(k1);
    }
  }
}
