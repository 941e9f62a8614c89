/**
 * The declarative field definitions of the current bundle
 * (`Annotation\Filter`, `Annotation\Sort`, `Annotation\Pagination`):
 * immutable records built by a constructor with defaults.
 */
module Annotation {
  import opened Wrappers

  const ComparisonEquals: string := "eq"
  const ComparisonNotEquals: string := "neq"
  const ComparisonGreaterThan: string := "gt"
  const ComparisonGreaterThanEquals: string := "gteq"
  const ComparisonLessThan: string := "lt"
  const ComparisonLessThanEquals: string := "lteq"
  const ComparisonIn: string := "in"
  const ComparisonNotIn: string := "nin"
  const ComparisonLike: string := "like"

  /** The private `ALL_COMPARISONS` list, the default of `allowedComparisons`. */
  const AllComparisons: seq<string> := [
    ComparisonEquals, ComparisonNotEquals, ComparisonGreaterThan, ComparisonGreaterThanEquals,
    ComparisonLessThan, ComparisonLessThanEquals, ComparisonIn, ComparisonNotIn, ComparisonLike
  ]

  const Ascending: string := "asc"
  const Descending: string := "desc"

  /** One filter an endpoint accepts. */
  datatype Filter = Filter(
    name: string,
    allowedComparisons: seq<string>,
    enum: seq<string>,
    queryBuilderName: Option<string>,
    autoApply: bool)

  /** One sort field an endpoint accepts. */
  datatype Sort = Sort(
    name: string,
    allowedDirections: seq<string>,
    queryBuilderName: Option<string>,
    autoApply: bool)

  /** The pagination switch of an endpoint; `maxEntries` null means unbounded. */
  datatype Pagination = Pagination(maxEntries: Option<int>)

  /** `new Filter(...)`: `name` is required, the other arguments have defaults. */
  function NewFilter(
    name: string,
    allowedComparisons: seq<string> := AllComparisons,
    enum: seq<string> := [],
    queryBuilderName: Option<string> := None,
    autoApply: bool := true): (f: Filter)
    ensures f.name == name && f.allowedComparisons == allowedComparisons && f.enum == enum
    ensures f.queryBuilderName == queryBuilderName && f.autoApply == autoApply
  {
    Filter(name, allowedComparisons, enum, queryBuilderName, autoApply)
  }

  /** `new Sort(...)`: `name` is required, the other arguments have defaults. */
  function NewSort(
    name: string,
    allowedDirections: seq<string> := [Ascending, Descending],
    queryBuilderName: Option<string> := None,
    autoApply: bool := true): (s: Sort)
    ensures s.name == name && s.allowedDirections == allowedDirections
    ensures s.queryBuilderName == queryBuilderName && s.autoApply == autoApply
  {
    Sort(name, allowedDirections, queryBuilderName, autoApply)
  }

  /** `new Pagination(maxEntries)`, `maxEntries` defaulting to null. */
  function NewPagination(maxEntries: Option<int> := None): (p: Pagination)
    ensures p.maxEntries == maxEntries
  {
    Pagination(maxEntries)
  }

  /** The nine comparison operators, their spelling, order and distinctness. */
  lemma ComparisonConstants()
    ensures AllComparisons == ["eq", "neq", "gt", "gteq", "lt", "lteq", "in", "nin", "like"]
    ensures forall i, j :: 0 <= i < j < |AllComparisons| ==> AllComparisons[i] != AllComparisons[j]
  {
  }

  /** A filter declared with a name only allows everything and is applied automatically. */
  lemma FilterDefaults(name: string)
    ensures NewFilter(name) == Filter(name, ["eq", "neq", "gt", "gteq", "lt", "lteq", "in", "nin", "like"], [], None, true)
  {
  }

  /** The two sort directions and the defaults of a sort declared with a name only. */
  lemma SortDefaults(name: string)
    ensures Ascending == "asc" && Descending == "desc"
    ensures NewSort(name) == Sort(name, ["asc", "desc"], None, true)
  {
  }
}
