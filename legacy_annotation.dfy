/**
 * The older revision of the definitions (top-level `Annotation\Filter` and
 * `Annotation\Sort`): the same records, but the lists of comparisons and
 * directions are public constants and `name` defaults to the empty string.
 */
module LegacyAnnotation {
  import opened Wrappers
  import opened Annotation

  /** The public `AVAILABLE_COMPARISONS`. */
  const AvailableComparisons: seq<string> := [
    ComparisonEquals, ComparisonNotEquals, ComparisonGreaterThan, ComparisonGreaterThanEquals,
    ComparisonLessThan, ComparisonLessThanEquals, ComparisonIn, ComparisonNotIn, ComparisonLike
  ]

  /** The public `AVAILABLE_DIRECTIONS`. */
  const AvailableDirections: seq<string> := ["asc", "desc"]

  /** The older `new Filter(...)`: every argument has a default, `name` defaults to ''. */
  function NewLegacyFilter(
    name: string := "",
    allowedComparisons: seq<string> := AvailableComparisons,
    enum: seq<string> := [],
    queryBuilderName: Option<string> := None,
    autoApply: bool := true): (f: Filter)
    ensures f.name == name && f.allowedComparisons == allowedComparisons && f.enum == enum
    ensures f.queryBuilderName == queryBuilderName && f.autoApply == autoApply
  {
    Filter(name, allowedComparisons, enum, queryBuilderName, autoApply)
  }

  /** The older `new Sort(...)`: every argument has a default, `name` defaults to ''. */
  function NewLegacySort(
    name: string := "",
    allowedDirections: seq<string> := AvailableDirections,
    queryBuilderName: Option<string> := None,
    autoApply: bool := true): (s: Sort)
    ensures s.name == name && s.allowedDirections == allowedDirections
    ensures s.queryBuilderName == queryBuilderName && s.autoApply == autoApply
  {
    Sort(name, allowedDirections, queryBuilderName, autoApply)
  }

  /** The public list holds the same nine distinct operators, in the same order. */
  lemma AvailableComparisonsConstant()
    ensures AvailableComparisons == ["eq", "neq", "gt", "gteq", "lt", "lteq", "in", "nin", "like"]
    ensures AvailableComparisons == AllComparisons
    ensures forall i, j :: 0 <= i < j < |AvailableComparisons| ==> AvailableComparisons[i] != AvailableComparisons[j]
  {
  }

  /** With no arguments at all, the older constructors give a nameless definition allowing everything. */
  lemma LegacyDefaults()
    ensures NewLegacyFilter() == Filter("", AvailableComparisons, [], None, true)
    ensures NewLegacySort() == Sort("", ["asc", "desc"], None, true)
    ensures AvailableDirections == [Ascending, Descending]
  {
  }
}
