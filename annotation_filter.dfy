/**
 * The include/exclude predicate over span annotations. A filter carries an
 * optional include condition and an optional exclude condition; each
 * condition carries optional lists of names, sources and user ids. A record
 * satisfies the filter when it matches the include condition (or there is
 * none) and does not match the exclude condition (or there is none).
 *
 * Only the fields the predicate reads are modelled; user ids are plain
 * integers rather than encoded global ids.
 */
module SpanAnnotationFilters {
  import opened Wrappers

  datatype AnnotationSource = API | APP

  /** The attributes of a span annotation that a filter can constrain. */
  datatype SpanAnnotation = SpanAnnotation(name: string, source: AnnotationSource, userId: Option<int>)

  datatype SpanAnnotationFilterCondition = SpanAnnotationFilterCondition(
    names: Option<seq<string>>,
    sources: Option<seq<AnnotationSource>>,
    userIds: Option<seq<int>>)

  datatype SpanAnnotationFilter = SpanAnnotationFilter(
    inclusion: Option<SpanAnnotationFilterCondition>,
    exclusion: Option<SpanAnnotationFilterCondition>)

  /** A field constrains the record only when its list is given and non-empty. */
  predicate Constrains<T>(field: Option<seq<T>>)
  {
    field.Some? && |field.value| > 0
  }

  /** A field is met when it does not constrain, or when the attribute is one of its values. */
  predicate FieldMatches<T(==)>(field: Option<seq<T>>, attribute: T)
  {
    !Constrains(field) || attribute in field.value
  }

  /** The user-id field: a record without a user never meets a constraining list. */
  predicate UserFieldMatches(field: Option<seq<int>>, userId: Option<int>)
  {
    !Constrains(field) || (userId.Some? && userId.value in field.value)
  }

  /** A condition is matched when every field it constrains is met. */
  predicate Matches(annotation: SpanAnnotation, condition: SpanAnnotationFilterCondition)
  {
    && FieldMatches(condition.names, annotation.name)
    && FieldMatches(condition.sources, annotation.source)
    && UserFieldMatches(condition.userIds, annotation.userId)
  }

  /** Whether the annotation passes the filter. */
  function SatisfiesFilter(annotation: SpanAnnotation, filter: SpanAnnotationFilter): (r: bool)
    ensures filter.inclusion.None? && filter.exclusion.None? ==> r
    ensures r ==> filter.inclusion.None? || Matches(annotation, filter.inclusion.value)
    ensures r ==> filter.exclusion.None? || !Matches(annotation, filter.exclusion.value)
  {
    (filter.inclusion.None? || Matches(annotation, filter.inclusion.value))
    && !(filter.exclusion.Some? && Matches(annotation, filter.exclusion.value))
  }

  /** An absent include imposes no restriction: only the exclude condition decides. */
  lemma AbsentIncludeOnlyExcludes(annotation: SpanAnnotation, exclusion: Option<SpanAnnotationFilterCondition>)
    ensures SatisfiesFilter(annotation, SpanAnnotationFilter(None, exclusion)) <==>
      (exclusion.None? || !Matches(annotation, exclusion.value))
  {
  }

  /** An absent exclude imposes no restriction: only the include condition decides. */
  lemma AbsentExcludeOnlyIncludes(annotation: SpanAnnotation, inclusion: Option<SpanAnnotationFilterCondition>)
    ensures SatisfiesFilter(annotation, SpanAnnotationFilter(inclusion, None)) <==>
      (inclusion.None? || Matches(annotation, inclusion.value))
  {
  }

  /** Adding an include or an exclude condition can only reject more records. */
  lemma ConditionsOnlyNarrow(annotation: SpanAnnotation, filter: SpanAnnotationFilter)
    ensures SatisfiesFilter(annotation, filter) ==> SatisfiesFilter(annotation, filter.(inclusion := None))
    ensures SatisfiesFilter(annotation, filter) ==> SatisfiesFilter(annotation, filter.(exclusion := None))
  {
  }

  /** A record whose name, source or user id is outside a constraining include list is rejected. */
  lemma OutsideIncludeIsRejected(annotation: SpanAnnotation, inclusion: SpanAnnotationFilterCondition,
                                 exclusion: Option<SpanAnnotationFilterCondition>)
    requires
      || (Constrains(inclusion.names) && annotation.name !in inclusion.names.value)
      || (Constrains(inclusion.sources) && annotation.source !in inclusion.sources.value)
      || (Constrains(inclusion.userIds) && !(annotation.userId.Some? && annotation.userId.value in inclusion.userIds.value))
    ensures !SatisfiesFilter(annotation, SpanAnnotationFilter(Some(inclusion), exclusion))
  {
  }

  /** Exclude wins: a record that matches the exclude condition is rejected, whatever the include says. */
  lemma ExcludeWins(annotation: SpanAnnotation, inclusion: Option<SpanAnnotationFilterCondition>,
                    exclusion: SpanAnnotationFilterCondition)
    requires Matches(annotation, exclusion)
    ensures !SatisfiesFilter(annotation, SpanAnnotationFilter(inclusion, Some(exclusion)))
  {
  }

  /** A record matching the include condition and not the exclude condition is accepted. */
  lemma IncludedAndNotExcludedIsAccepted(annotation: SpanAnnotation, inclusion: SpanAnnotationFilterCondition,
                                         exclusion: SpanAnnotationFilterCondition)
    requires Matches(annotation, inclusion) && !Matches(annotation, exclusion)
    ensures SatisfiesFilter(annotation, SpanAnnotationFilter(Some(inclusion), Some(exclusion)))
  {
  }

  /**
   * A record without a user never matches a constraining user-id list: it
   * fails such an include and passes such an exclusion.
   */
  lemma NullUserMatchesNoUserIds(annotation: SpanAnnotation, condition: SpanAnnotationFilterCondition)
    requires annotation.userId.None? && Constrains(condition.userIds)
    ensures !Matches(annotation, condition)
    ensures !SatisfiesFilter(annotation, SpanAnnotationFilter(Some(condition), None))
    ensures SatisfiesFilter(annotation, SpanAnnotationFilter(None, Some(condition)))
  {
  }

  /**
   * A field list is a membership test: only the set of listed values
   * matters, not their order or repetition.
   */
  lemma OnlyListedValuesMatter<T>(field: seq<T>, other: seq<T>, attribute: T)
    requires |field| > 0 && |other| > 0
    requires forall x :: x in field <==> x in other
    ensures FieldMatches(Some(field), attribute) <==> FieldMatches(Some(other), attribute)
  {
  }

  /** An attribute equal to any of the listed values matches the field. */
  lemma AnyListedValueMatches<T>(field: seq<T>, k: int)
    requires 0 <= k < |field|
    ensures FieldMatches(Some(field), field[k])
  {
  }

  /** A present but empty list, like an absent one, imposes no constraint. */
  lemma EmptyListIsNoConstraint(annotation: SpanAnnotation, condition: SpanAnnotationFilterCondition)
    ensures Matches(annotation, condition) <==>
      Matches(annotation, SpanAnnotationFilterCondition(
        if condition.names == Some([]) then None else condition.names,
        if condition.sources == Some([]) then None else condition.sources,
        if condition.userIds == Some([]) then None else condition.userIds))
  {
  }

  /**
   * The other reading of a multi-field condition: matched when ANY field it
   * constrains is met. It is stated only to compare the two readings.
   */
  predicate MatchesAnyField(annotation: SpanAnnotation, condition: SpanAnnotationFilterCondition)
  {
    || (Constrains(condition.names) && annotation.name in condition.names.value)
    || (Constrains(condition.sources) && annotation.source in condition.sources.value)
    || (Constrains(condition.userIds) && annotation.userId.Some? && annotation.userId.value in condition.userIds.value)
  }

  function SatisfiesFilterAnyField(annotation: SpanAnnotation, filter: SpanAnnotationFilter): (r: bool)
    ensures r ==> filter.exclusion.None? || !MatchesAnyField(annotation, filter.exclusion.value)
  {
    (filter.inclusion.None? || MatchesAnyField(annotation, filter.inclusion.value))
    && !(filter.exclusion.Some? && MatchesAnyField(annotation, filter.exclusion.value))
  }

  /** The two readings agree on every condition that constrains at most one field. */
  lemma ReadingsAgreeOnSingleFieldConditions(annotation: SpanAnnotation, condition: SpanAnnotationFilterCondition)
    requires
      && (Constrains(condition.names) ==> !Constrains(condition.sources) && !Constrains(condition.userIds))
      && (Constrains(condition.sources) ==> !Constrains(condition.userIds))
    requires Constrains(condition.names) || Constrains(condition.sources) || Constrains(condition.userIds)
    ensures Matches(annotation, condition) <==> MatchesAnyField(annotation, condition)
  {
  }

  /**
   * A third reading: the include condition needs every constraining field
   * met, while the exclude condition rejects as soon as any one is met.
   */
  function SatisfiesFilterMixed(annotation: SpanAnnotation, filter: SpanAnnotationFilter): (r: bool)
    ensures r ==> filter.inclusion.None? || Matches(annotation, filter.inclusion.value)
    ensures r ==> filter.exclusion.None? || !MatchesAnyField(annotation, filter.exclusion.value)
  {
    (filter.inclusion.None? || Matches(annotation, filter.inclusion.value))
    && !(filter.exclusion.Some? && MatchesAnyField(annotation, filter.exclusion.value))
  }

  /**
   * An exclude condition that constrains no field separates the chosen
   * reading from the third: the chosen one rejects every record, the third
   * rejects none.
   */
  lemma ReadingsDifferOnEmptyExclude(annotation: SpanAnnotation, condition: SpanAnnotationFilterCondition)
    requires !Constrains(condition.names) && !Constrains(condition.sources) && !Constrains(condition.userIds)
    ensures !SatisfiesFilter(annotation, SpanAnnotationFilter(None, Some(condition)))
    ensures SatisfiesFilterMixed(annotation, SpanAnnotationFilter(None, Some(condition)))
  {
  }

  /** The readings differ once a condition constrains two fields and only one is met. */
  lemma ReadingsDifferOnPartialMatch()
    ensures var annotation := SpanAnnotation("test-name", API, None);
      var condition := SpanAnnotationFilterCondition(Some(["test-name"]), Some([APP]), None);
      && !SatisfiesFilter(annotation, SpanAnnotationFilter(Some(condition), None))
      && SatisfiesFilterAnyField(annotation, SpanAnnotationFilter(Some(condition), None))
  {
  }

  // The parametrised cases of satisfies_filter, one lemma per case. Each
  // case holds under all three readings of a multi-field condition.

  function Names(names: seq<string>): SpanAnnotationFilterCondition
  {
    SpanAnnotationFilterCondition(Some(names), None, None)
  }

  function Sources(sources: seq<AnnotationSource>): SpanAnnotationFilterCondition
  {
    SpanAnnotationFilterCondition(None, Some(sources), None)
  }

  function UserIds(userIds: seq<int>): SpanAnnotationFilterCondition
  {
    SpanAnnotationFilterCondition(None, None, Some(userIds))
  }

  function Include(condition: SpanAnnotationFilterCondition): SpanAnnotationFilter
  {
    SpanAnnotationFilter(Some(condition), None)
  }

  function Exclude(condition: SpanAnnotationFilterCondition): SpanAnnotationFilter
  {
    SpanAnnotationFilter(None, Some(condition))
  }

  /** All three readings give `expected` for this record and filter. */
  predicate Decides(annotation: SpanAnnotation, filter: SpanAnnotationFilter, expected: bool)
  {
    && SatisfiesFilter(annotation, filter) == expected
    && SatisfiesFilterAnyField(annotation, filter) == expected
    && SatisfiesFilterMixed(annotation, filter) == expected
  }

  lemma MatchesIncludedName()
    ensures Decides(SpanAnnotation("test-name", API, None), Include(Names(["test-name"])), true)
  {
  }

  lemma DoesNotMatchIncludedName()
    ensures Decides(SpanAnnotation("span-annotation-name", API, None), Include(Names(["missing-name"])), false)
  {
  }

  lemma MatchesExcludedName()
    ensures Decides(SpanAnnotation("test-name", API, None), Exclude(Names(["test-name"])), false)
  {
  }

  lemma DoesNotMatchExcludedName()
    ensures Decides(SpanAnnotation("test-name", API, None), Exclude(Names(["different-name"])), true)
  {
  }

  lemma MatchesIncludedSource()
    ensures Decides(SpanAnnotation("test-name", API, None), Include(Sources([API])), true)
  {
  }

  lemma DoesNotMatchIncludedSource()
    ensures Decides(SpanAnnotation("test-name", APP, None), Include(Sources([API])), false)
  {
  }

  lemma MatchesExcludedSource()
    ensures Decides(SpanAnnotation("test-name", APP, None), Exclude(Sources([APP])), false)
  {
  }

  lemma DoesNotMatchExcludedSource()
    ensures Decides(SpanAnnotation("test-name", API, None), Exclude(Sources([APP])), true)
  {
  }

  lemma MatchesIncludedUserId()
    ensures Decides(SpanAnnotation("test-name", API, Some(1)), Include(UserIds([1])), true)
  {
  }

  lemma DoesNotMatchIncludedUserId()
    ensures Decides(SpanAnnotation("test-name", API, Some(1)), Include(UserIds([2])), false)
  {
  }

  lemma DoesNotMatchIncludedUserIdWithNullUserId()
    ensures Decides(SpanAnnotation("test-name", API, None), Include(UserIds([1])), false)
  {
  }

  lemma MatchesExcludedUserId()
    ensures Decides(SpanAnnotation("test-name", API, Some(1)), Exclude(UserIds([1])), false)
  {
  }

  lemma DoesNotMatchExcludedUserId()
    ensures Decides(SpanAnnotation("test-name", API, Some(2)), Exclude(UserIds([1])), true)
  {
  }

  lemma DoesNotMatchExcludedUserIdWithNullUserId()
    ensures Decides(SpanAnnotation("test-name", API, None), Exclude(UserIds([1])), true)
  {
  }

  lemma MatchesAllIncludeFieldsAndNoExcludeFields()
    ensures Decides(
      SpanAnnotation("test-name", API, Some(1)),
      SpanAnnotationFilter(
        Some(SpanAnnotationFilterCondition(Some(["test-name"]), Some([API]), Some([1]))),
        Some(SpanAnnotationFilterCondition(Some(["other-name"]), Some([APP]), Some([2])))),
      true)
  {
  }

  lemma MatchesAllIncludeFieldsButFailsOnExcludeName()
    ensures Decides(
      SpanAnnotation("test-name", API, Some(1)),
      SpanAnnotationFilter(
        Some(SpanAnnotationFilterCondition(Some(["test-name"]), Some([API]), Some([1]))),
        Some(Names(["test-name"]))),
      false)
  {
  }

  lemma MatchesMultipleIncludedNamesAndSources()
    ensures Decides(
      SpanAnnotation("test-name", API, None),
      Include(SpanAnnotationFilterCondition(Some(["test-name", "other-name"]), Some([API, APP]), None)),
      true)
  {
  }

  lemma MatchesMultipleExcludedNamesAndSources()
    ensures Decides(
      SpanAnnotation("test-name", API, None),
      Exclude(SpanAnnotationFilterCondition(Some(["test-name", "other-name"]), Some([API, APP]), None)),
      false)
  {
  }
}
