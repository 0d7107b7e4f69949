# Token-count loader and span-annotation filter, modelled in Dafny

This project models two pieces of the Phoenix tracing server.

**The token-count data loader** (`src/phoenix/server/api/dataloaders/token_counts.py`).
A key asks for one token count: a kind (prompt, completion or total), a
project, an optional time range and an optional span-filter condition.

- `_cache_key_fn` splits a key into a *segment* (time interval and filter
  condition) and a *param* (project and kind). The token-count cache's
  `_cache_key` splits it into a *section* (the project) and a *sub-key*
  (interval, filter condition and kind).
- `_load_fn` answers a batch of keys. It pre-fills every position with 0. It
  groups the positions into a segment → param → positions dictionary. It then
  runs one aggregate statement per distinct segment, in first-occurrence order.
  Each returned row `(project, prompt, completion, total)` is fanned out to the
  positions that asked for that project and kind.
- `_get_stmt` builds the statement for a segment. Its meaning is modelled as a
  selection over spans: a half-open time window whose bounds apply only when
  present, the filter only when the condition is a non-empty string, and the
  projects of the segment's params. The statement then returns one
  coalesced-sum row per project.

**The span-annotation include/exclude predicate** `satisfies_filter`, as fixed by
its parametrised test table (`tests/unit/server/api/input_types/test_SpanAnnotationFilter.py`).

Files:

- `wrappers.dfy` (module `Wrappers`): `Option` and `Result`.
- `token_counts.dfy` (module `TokenCounts`): keys, the two decompositions and the
  cache constants. These are `MainCacheMaxSize = 64`, `MainCacheTtlSeconds = 3600`,
  `SubCacheMaxSize = 2 * 2 * 3` and `DefaultValue = 0`.
- `token_count_statement.dfy` (module `TokenCountStatement`): `_get_stmt` as a
  list of clauses, with what it selects and what it aggregates. It also holds
  `TokenCount`, a per-key reference definition of the count a key asks for.
- `token_count_loader.dfy` (module `TokenCountLoader`): `_load_fn`.
  - It is a method over an `array<int>` of results.
  - The grouping loop (`GroupPositions`) is proved against the recursive
    function `Group`.
  - The fan-out loops (`WriteAll`, `FanOutRow`, `FanOutSegment`) are proved
    against `FannedOutValue`: the last row of a project wins.
  - The segment loop keeps `results[..] == Filled(db, keys, order[..j])` as its
    invariant.
  - The database is a parameter `db: Statement -> Result<seq<Row>, QueryError>`.
- `annotation_filter.dfy` (module `SpanAnnotationFilters`): `satisfies_filter`,
  its general laws, and one lemma per test case.

## Model

| member | source | states |
|---|---|---|
| TokenCounts.CacheKeyFn | src/phoenix/server/api/dataloaders/token_counts.py:32-37 | the param carries the key's project and kind; the segment carries its filter condition and its range's bounds, and a key without a range gets the interval (None, None) |
| TokenCounts.SameDecomposition | src/phoenix/server/api/dataloaders/token_counts.py:32-37 | two keys get the same (segment, param) exactly when they agree on kind, project, filter condition and interval |
| TokenCounts.DecompositionIsOnto | src/phoenix/server/api/dataloaders/token_counts.py:32-37 | every (segment, param) pair is the decomposition of some key |
| TokenCounts.MissingRangeIsUnbounded | src/phoenix/server/api/dataloaders/token_counts.py:34-36 | a key without a time range is grouped with the same key over a range with neither bound |
| TokenCounts.CacheKey | src/phoenix/server/api/dataloaders/token_counts.py:56-58 | the section is the key's project, and rebuilding (segment, param) from (section, sub-key) gives exactly the key's decomposition |
| TokenCounts.AddressRoundTrips | src/phoenix/server/api/dataloaders/token_counts.py:56-58 | (segment, param) and (section, sub-key) carry the same information: converting either way and back is the identity |
| TokenCounts.CacheKeyAgreesWithSplit | src/phoenix/server/api/dataloaders/token_counts.py:56-58 | two keys share a cache address exactly when they share a segment and a param |
| TokenCountStatement.ProjectIds | src/phoenix/server/api/dataloaders/token_counts.py:123 | the project of every param is in the statement's project set |
| TokenCountStatement.ProjectIdsWitness | src/phoenix/server/api/dataloaders/token_counts.py:123 | every project of the set is the project of one of the params |
| TokenCountStatement.GetStmt | src/phoenix/server/api/dataloaders/token_counts.py:97-124 | the statement always ends with the restriction to the params' projects, and that is its only project restriction |
| TokenCountStatement.GetStmtSelects | src/phoenix/server/api/dataloaders/token_counts.py:116-123 | a span is selected exactly when it starts at or after the start (if any), strictly before the end (if any), passes a non-empty filter condition, and belongs to one of the params' projects |
| TokenCountStatement.EmptyConditionIsNoCondition | src/phoenix/server/api/dataloaders/token_counts.py:120-122 | an empty filter string builds the same statement as no filter |
| TokenCountStatement.NoSpansSumToZero | src/phoenix/server/api/dataloaders/token_counts.py:102-103 | a project without selected spans sums to 0 for every kind (the coalesce) |
| TokenCountStatement.TotalIsPromptPlusCompletion | src/phoenix/server/api/dataloaders/token_counts.py:102-104 | the summed total equals summed prompt plus summed completion, with missing counts as 0 |
| TokenCountStatement.AggregateColumns | src/phoenix/server/api/dataloaders/token_counts.py:102-112 | each column of a project's row is that kind's sum over the project's selected spans |
| TokenCountStatement.SegmentSumIsTokenCount | src/phoenix/server/api/dataloaders/token_counts.py:101-123 | within a key's project, its segment's statement sums exactly the spans the key's own window and filter select, whatever other projects share the statement |
| TokenCountLoader.PositionsSpec | src/phoenix/server/api/dataloaders/token_counts.py:80-82 | the positions of a (segment, param) are strictly increasing, in range, and exactly those whose key decomposes to that pair |
| TokenCountLoader.SegmentOrderSpec | src/phoenix/server/api/dataloaders/token_counts.py:80-84 | the dictionary's segment order has no repeats and holds the segment of every key |
| TokenCountLoader.ParamsOfSpec | src/phoenix/server/api/dataloaders/token_counts.py:80-85 | every key contributes its param to the params of its segment |
| TokenCountLoader.SegmentOrderWitness | src/phoenix/server/api/dataloaders/token_counts.py:80-84 | every segment in the order is the segment of some key |
| TokenCountLoader.ParamsOfWitness | src/phoenix/server/api/dataloaders/token_counts.py:80-85 | every param under a segment is the param of some key of that segment |
| TokenCountLoader.UnseenSegmentHasNoParams | src/phoenix/server/api/dataloaders/token_counts.py:80-82 | a segment no key has has no params |
| TokenCountLoader.UnseenParamHasNoPositions | src/phoenix/server/api/dataloaders/token_counts.py:80-82 | a param not asked under a segment has no positions there |
| TokenCountLoader.GroupDomain | src/phoenix/server/api/dataloaders/token_counts.py:76-82 | the grouping has an entry exactly for the keys' segments, and each entry's params are those asked under it |
| TokenCountLoader.GroupBucket | src/phoenix/server/api/dataloaders/token_counts.py:76-82 | each list of the grouping is exactly the increasing positions of its (segment, param) |
| TokenCountLoader.GroupIsGrouping | src/phoenix/server/api/dataloaders/token_counts.py:76-82 | appending each position in turn builds the grouping: right segments, right params, right positions |
| TokenCountLoader.GroupPositions | src/phoenix/server/api/dataloaders/token_counts.py:76-82 | the grouping loop returns the grouping of all keys and the segments in the order they first occur |
| TokenCountLoader.EveryPositionIsGrouped | src/phoenix/server/api/dataloaders/token_counts.py:80-82 | every position is in the list of its own segment and param |
| TokenCountLoader.GroupedPositionsBelong | src/phoenix/server/api/dataloaders/token_counts.py:80-82 | a position in a list is a position of the batch whose key has that list's segment and param, so no position is in two lists |
| TokenCountLoader.BucketsAreIncreasing | src/phoenix/server/api/dataloaders/token_counts.py:80-82 | every list is non-empty and strictly increasing |
| TokenCountLoader.SegmentBuckets | src/phoenix/server/api/dataloaders/token_counts.py:80-82 | the lists of one segment are pairwise disjoint and hold only positions of the batch |
| TokenCountLoader.PositionInSegment | src/phoenix/server/api/dataloaders/token_counts.py:80-82 | a position is in its param's list of its own segment and in no list of any other segment |
| TokenCountLoader.StatementRestriction | src/phoenix/server/api/dataloaders/token_counts.py:84-85 | a segment's statement restricts to exactly the projects of the keys of that segment |
| TokenCountLoader.FannedOutValue | src/phoenix/server/api/dataloaders/token_counts.py:87-93 | after the rows, a param's positions hold its kind's column of the last row of its project, or their old value when no row has that project |
| TokenCountLoader.WriteAll | src/phoenix/server/api/dataloaders/token_counts.py:88-89 | the listed positions get the value; every other position is unchanged |
| TokenCountLoader.FanOutRow | src/phoenix/server/api/dataloaders/token_counts.py:87-93 | one row writes prompt, completion and total, in that order, to its project's three lists; every other position is unchanged |
| TokenCountLoader.FanOutSegment | src/phoenix/server/api/dataloaders/token_counts.py:87-93 | after all rows of a segment each listed position holds FannedOutValue for its param, and unlisted positions are unchanged |
| TokenCountLoader.FirstOccurrence | src/phoenix/server/api/dataloaders/token_counts.py:84 | no segment is handled twice |
| TokenCountLoader.NextSegment | src/phoenix/server/api/dataloaders/token_counts.py:84-85 | the j-th statement run is the one built from the j-th segment and the params in its dictionary entry |
| TokenCountLoader.OneStatementPerSegment | src/phoenix/server/api/dataloaders/token_counts.py:84-85 | there is one statement per distinct segment: every key's segment is run, none twice, each with its own params |
| TokenCountLoader.RunAfter | src/phoenix/server/api/dataloaders/token_counts.py:84-86 | a run stopped among the first j statements stopped at one of them |
| TokenCountLoader.RunningIffAllSucceeded | src/phoenix/server/api/dataloaders/token_counts.py:84-86 | the statements run so far all succeeded exactly when the run has not stopped |
| TokenCountLoader.StoppedAtFirstFailure | src/phoenix/server/api/dataloaders/token_counts.py:84-86 | a stopped run stopped at a failing statement, with its error, and every earlier statement succeeded |
| TokenCountLoader.FailureStopsRun | src/phoenix/server/api/dataloaders/token_counts.py:84-86 | a statement that fails while the run is going stops the whole run there, with its error |
| TokenCountLoader.StaysStopped | src/phoenix/server/api/dataloaders/token_counts.py:84-86 | once stopped, running further statements changes nothing |
| TokenCountLoader.FilledBounds | src/phoenix/server/api/dataloaders/token_counts.py:75-94 | with no segment done every value is 0, and with all segments done every position holds its key's answer |
| TokenCountLoader.DuplicateKeysAgree | src/phoenix/server/api/dataloaders/token_counts.py:80-93 | two positions whose keys have the same segment and param get the same value |
| TokenCountLoader.ProjectWithoutRowsGetsDefault | src/phoenix/server/api/dataloaders/token_counts.py:75 | a key whose project has no row gets 0, not an error |
| TokenCountLoader.FanOutBatchStep | src/phoenix/server/api/dataloaders/token_counts.py:87-93 | fanning one more segment's rows out turns the values for the done segments into those for the done segments plus that one |
| TokenCountLoader.FanOutBatchSegment | src/phoenix/server/api/dataloaders/token_counts.py:87-93 | the results array goes from Filled(done) to Filled(done + [segment]) |
| TokenCountLoader.LoadFn | src/phoenix/server/api/dataloaders/token_counts.py:74-94 | runs the statements in first-occurrence order. If all succeed it returns one answer per key, in key order, and has run every statement once. Otherwise it fails with the first error and has run exactly the statements up to that one (the run statements are a ghost result, not returned) |
| TokenCountLoader.LoadSucceedsIffEveryStatementSucceeds | src/phoenix/server/api/dataloaders/token_counts.py:83-94 | the batch succeeds exactly when the statement of every segment succeeds |
| TokenCountLoader.LoadFailsWithFirstError | src/phoenix/server/api/dataloaders/token_counts.py:83-86 | a failed batch fails with the error of the first segment, in order, whose statement failed; all earlier ones succeeded |
| TokenCountLoader.FannedOutValueOfResult | src/phoenix/server/api/dataloaders/token_counts.py:87-93 | when the engine returns the statement's rows, in any order, a param's fanned-out value is its project's sum for its kind, or 0 |
| TokenCountLoader.BatchAnswerIsTokenCount | src/phoenix/server/api/dataloaders/token_counts.py:74-124 | answering a key inside a batch gives exactly the count of that key computed alone (the reference TokenCount), assuming the engine returns the statement's rows as `IsResultOf` describes them: one row per project with selected spans, holding that project's coalesced sums (token_counts.py:102-115) |
| SpanAnnotationFilters.SatisfiesFilter | tests/unit/server/api/input_types/test_SpanAnnotationFilter.py:344-349 | no conditions accept everything; an accepted record matches the include condition if present, and does not match the exclude condition if present, where `Matches` requires every constraining field (name, source, user id) to be met and a null user meets no user-id list |
| SpanAnnotationFilters.AbsentIncludeOnlyExcludes | tests/unit/server/api/input_types/test_SpanAnnotationFilter.py:61-75 | without include, a record is accepted exactly when it does not match the exclude condition |
| SpanAnnotationFilters.AbsentExcludeOnlyIncludes | tests/unit/server/api/input_types/test_SpanAnnotationFilter.py:16-30 | without exclude, a record is accepted exactly when it matches the include condition |
| SpanAnnotationFilters.ConditionsOnlyNarrow | tests/unit/server/api/input_types/test_SpanAnnotationFilter.py:252-278 | dropping the include or the exclude condition never rejects an accepted record |
| SpanAnnotationFilters.OutsideIncludeIsRejected | tests/unit/server/api/input_types/test_SpanAnnotationFilter.py:31-45 | a name, source or user id outside a constraining include list rejects the record |
| SpanAnnotationFilters.ExcludeWins | tests/unit/server/api/input_types/test_SpanAnnotationFilter.py:279-301 | a record matching the exclude condition is rejected whatever the include condition |
| SpanAnnotationFilters.IncludedAndNotExcludedIsAccepted | tests/unit/server/api/input_types/test_SpanAnnotationFilter.py:252-278 | matching the include condition and not the exclude condition accepts the record |
| SpanAnnotationFilters.NullUserMatchesNoUserIds | tests/unit/server/api/input_types/test_SpanAnnotationFilter.py:180-197 | a record without a user never matches a user-id list: it fails such an include and passes such an exclude |
| SpanAnnotationFilters.OnlyListedValuesMatter | tests/unit/server/api/input_types/test_SpanAnnotationFilter.py:302-321 | a field depends only on the set of listed values, not their order or repetition |
| SpanAnnotationFilters.AnyListedValueMatches | tests/unit/server/api/input_types/test_SpanAnnotationFilter.py:302-341 | an attribute equal to any listed value meets the field |
| SpanAnnotationFilters.EmptyListIsNoConstraint | tests/unit/server/api/input_types/test_SpanAnnotationFilter.py:344-349 | a present but empty list constrains like an absent one (a modelling choice, see Left out) |
| SpanAnnotationFilters.SatisfiesFilterAnyField | tests/unit/server/api/input_types/test_SpanAnnotationFilter.py:252-341 | under the any-field reading, an accepted record does not match the exclude condition |
| SpanAnnotationFilters.ReadingsAgreeOnSingleFieldConditions | tests/unit/server/api/input_types/test_SpanAnnotationFilter.py:16-251 | the all-fields and any-field readings agree on every condition that constrains one field |
| SpanAnnotationFilters.SatisfiesFilterMixed | tests/unit/server/api/input_types/test_SpanAnnotationFilter.py:252-341 | under the mixed reading, an accepted record meets every constraining include field and no constraining exclude field |
| SpanAnnotationFilters.ReadingsDifferOnEmptyExclude | tests/unit/server/api/input_types/test_SpanAnnotationFilter.py:344-349 | an exclude condition with no constraining field rejects every record under the chosen reading and none under the mixed one, a case the table does not contain |
| SpanAnnotationFilters.ReadingsDifferOnPartialMatch | tests/unit/server/api/input_types/test_SpanAnnotationFilter.py:252-341 | the readings differ on a two-field condition with one field met, a case the table does not contain |
| SpanAnnotationFilters.MatchesIncludedName | tests/unit/server/api/input_types/test_SpanAnnotationFilter.py:16-30 | accepted, under all three readings |
| SpanAnnotationFilters.DoesNotMatchIncludedName | tests/unit/server/api/input_types/test_SpanAnnotationFilter.py:31-45 | rejected, under all three readings |
| SpanAnnotationFilters.MatchesExcludedName | tests/unit/server/api/input_types/test_SpanAnnotationFilter.py:46-60 | rejected, under all three readings |
| SpanAnnotationFilters.DoesNotMatchExcludedName | tests/unit/server/api/input_types/test_SpanAnnotationFilter.py:61-75 | accepted, under all three readings |
| SpanAnnotationFilters.MatchesIncludedSource | tests/unit/server/api/input_types/test_SpanAnnotationFilter.py:76-92 | accepted, under all three readings |
| SpanAnnotationFilters.DoesNotMatchIncludedSource | tests/unit/server/api/input_types/test_SpanAnnotationFilter.py:93-109 | rejected, under all three readings |
| SpanAnnotationFilters.MatchesExcludedSource | tests/unit/server/api/input_types/test_SpanAnnotationFilter.py:110-126 | rejected, under all three readings |
| SpanAnnotationFilters.DoesNotMatchExcludedSource | tests/unit/server/api/input_types/test_SpanAnnotationFilter.py:127-143 | accepted, under all three readings |
| SpanAnnotationFilters.MatchesIncludedUserId | tests/unit/server/api/input_types/test_SpanAnnotationFilter.py:144-161 | accepted, under all three readings |
| SpanAnnotationFilters.DoesNotMatchIncludedUserId | tests/unit/server/api/input_types/test_SpanAnnotationFilter.py:162-179 | rejected, under all three readings |
| SpanAnnotationFilters.DoesNotMatchIncludedUserIdWithNullUserId | tests/unit/server/api/input_types/test_SpanAnnotationFilter.py:180-197 | rejected, under all three readings |
| SpanAnnotationFilters.MatchesExcludedUserId | tests/unit/server/api/input_types/test_SpanAnnotationFilter.py:198-215 | rejected, under all three readings |
| SpanAnnotationFilters.DoesNotMatchExcludedUserId | tests/unit/server/api/input_types/test_SpanAnnotationFilter.py:216-233 | accepted, under all three readings |
| SpanAnnotationFilters.DoesNotMatchExcludedUserIdWithNullUserId | tests/unit/server/api/input_types/test_SpanAnnotationFilter.py:234-251 | accepted, under all three readings |
| SpanAnnotationFilters.MatchesAllIncludeFieldsAndNoExcludeFields | tests/unit/server/api/input_types/test_SpanAnnotationFilter.py:252-278 | accepted, under all three readings |
| SpanAnnotationFilters.MatchesAllIncludeFieldsButFailsOnExcludeName | tests/unit/server/api/input_types/test_SpanAnnotationFilter.py:279-301 | rejected, under all three readings |
| SpanAnnotationFilters.MatchesMultipleIncludedNamesAndSources | tests/unit/server/api/input_types/test_SpanAnnotationFilter.py:302-321 | accepted, under all three readings |
| SpanAnnotationFilters.MatchesMultipleExcludedNamesAndSources | tests/unit/server/api/input_types/test_SpanAnnotationFilter.py:322-341 | rejected, under all three readings |

## Left out

- The database session, `session.stream` and the SQL text of the statement are left out. The engine is a parameter `db` mapping a statement to its rows or a `QueryError`; a statement's meaning is given by `GetStmtSelects` and `IsResultOf`.
- The span-filter expression compiler is left out. A filter condition's meaning is an uninterpreted predicate `SpanFilter` over spans. A compile error is modelled as a failure of that segment's statement.
- Failure handling follows the code: an exception from any segment's statement propagates out of `_load_fn`, so every caller in the batch fails, including callers of segments that already succeeded, and the values already fanned out are thrown away. Failing only the callers of the failing segment is not modelled, because the code does not do it.
- Statements run one after another in first-occurrence order. The asynchronous streaming and any overlap between segments are not modelled.
- A failure in the middle of a row stream is not distinguished from a failure before the first row; either fails the batch.
- `TwoTierCache`, `TTLCache` and `LFUCache` (eviction, time-to-live, access counts) are not part of this model. Only the key decomposition and the configured sizes 64, 3600 and 12 are.
- The `DataLoader` base class (batching per event-loop turn, caching of pending results) is not part of this model.
- Lookups in the fan-out default to an empty list instead of inserting an empty entry into the dictionary as Python's `defaultdict` does. The inserted entries are never read afterwards.
- Timestamps are integers. The start and end of a `TimeRange` are optional. A present datetime is always truthy in Python, so "present" is the only test that applies.
- `GlobalID` decoding is not part of this model: user ids are plain integers. The annotation fields the predicate does not read (label, score, explanation, metadata, span id) are not modelled.
- The implementation of `satisfies_filter` is not part of this model. Its behaviour is fixed only by the test table.
- SpanAnnotationFilters.Matches: a condition constraining several fields is matched only when all of them are met. The table does not decide this: each multi-field case meets all fields or none. Two other readings also fit all 18 cases: any field met (`SatisfiesFilterAnyField`), and every field met for include but any one field for exclude (`SatisfiesFilterMixed`). Each test lemma holds under all three readings. `ReadingsDifferOnPartialMatch` and `ReadingsDifferOnEmptyExclude` show inputs on which they differ.
- SpanAnnotationFilters.Matches: a present but empty list imposes no constraint, like an absent one. A present exclude condition with no constraining field therefore matches every record and rejects it. No test case covers either point.
