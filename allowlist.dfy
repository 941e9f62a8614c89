/**
 * The definition lookups and the allow-list rules of every revision, as
 * functions: the services' loops are proved against them.
 *
 * The current filter validator consults only the FIRST definition with the
 * field's name and also checks its enum; every other validator accepts a
 * field as soon as ANY definition with its name allows the comparison or
 * direction, and none checks an enum.
 */
module Allowlist {
  import opened Wrappers
  import opened Text
  import opened Annotation
  import opened Exceptions
  import opened Input

  /** `i` is the index of the first definition called `name`. */
  predicate FirstFilterNamed(filters: seq<Filter>, name: string, i: int)
  {
    0 <= i < |filters| && filters[i].name == name && forall j :: 0 <= j < i ==> filters[j].name != name
  }

  /** `getFilterByName`: the first definition with that name, or null. */
  function FilterByName(filters: seq<Filter>, name: string): (r: Option<Filter>)
    ensures r.None? <==> forall i :: 0 <= i < |filters| ==> filters[i].name != name
    ensures r.Some? ==> exists i :: FirstFilterNamed(filters, name, i) && filters[i] == r.value
  {
    if |filters| == 0 then None
    else if filters[0].name == name then
      assert FirstFilterNamed(filters, name, 0);
      Some(filters[0])
    else
      var r := FilterByName(filters[1..], name);
      assert r.Some? ==> exists i :: FirstFilterNamed(filters[1..], name, i) && filters[1..][i] == r.value;
      assert forall i :: FirstFilterNamed(filters[1..], name, i) ==> FirstFilterNamed(filters, name, i + 1);
      r
  }

  /** The first definition with the name is the one found, whatever follows it. */
  lemma {:induction false} FilterByNameIsFirst(filters: seq<Filter>, name: string, i: int)
    requires FirstFilterNamed(filters, name, i)
    ensures FilterByName(filters, name) == Some(filters[i])
  {
    if i > 0 {
      assert FirstFilterNamed(filters[1..], name, i - 1);
      FilterByNameIsFirst(filters[1..], name, i - 1);
    }
  }

  /** `i` is the index of the first sort definition called `name`. */
  predicate FirstSortNamed(sorts: seq<Sort>, name: string, i: int)
  {
    0 <= i < |sorts| && sorts[i].name == name && forall j :: 0 <= j < i ==> sorts[j].name != name
  }

  /** `getSortByName`: the first sort definition with that name, or null. */
  function SortByName(sorts: seq<Sort>, name: string): (r: Option<Sort>)
    ensures r.None? <==> forall i :: 0 <= i < |sorts| ==> sorts[i].name != name
    ensures r.Some? ==> exists i :: FirstSortNamed(sorts, name, i) && sorts[i] == r.value
  {
    if |sorts| == 0 then None
    else if sorts[0].name == name then
      assert FirstSortNamed(sorts, name, 0);
      Some(sorts[0])
    else
      var r := SortByName(sorts[1..], name);
      assert r.Some? ==> exists i :: FirstSortNamed(sorts[1..], name, i) && sorts[1..][i] == r.value;
      assert forall i :: FirstSortNamed(sorts[1..], name, i) ==> FirstSortNamed(sorts, name, i + 1);
      r
  }

  lemma {:induction false} SortByNameIsFirst(sorts: seq<Sort>, name: string, i: int)
    requires FirstSortNamed(sorts, name, i)
    ensures SortByName(sorts, name) == Some(sorts[i])
  {
    if i > 0 {
      assert FirstSortNamed(sorts[1..], name, i - 1);
      SortByNameIsFirst(sorts[1..], name, i - 1);
    }
  }

  /** `checkComparison`: the definition lists the field's comparison. */
  predicate ComparisonAllowed(f: FilterInput, def: Filter)
  {
    f.comparison in def.allowedComparisons
  }

  /**
   * `checkEnum`: an empty enum accepts anything; a list value needs every
   * element in the enum; a scalar value must itself be in the enum.
   */
  predicate EnumAllowed(f: FilterInput, def: Filter)
  {
    |def.enum| < 1 ||
    match GetValue(f)
    case List(items) => forall i :: 0 <= i < |items| ==> items[i] in def.enum
    case Scalar(t) => t in def.enum
  }

  /** A list filter written as the values joined by ',' passes the enum iff every one of those values is in it. */
  lemma EnumOfJoinedValues(name: string, comparison: string, items: seq<string>, filter: Option<Filter>, def: Filter)
    requires IsListComparison(comparison) && |items| >= 1 && |def.enum| >= 1
    requires forall i :: 0 <= i < |items| ==> ',' !in items[i]
    ensures EnumAllowed(FilterInput(name, Implode(",", items), comparison, filter), def) <==>
      forall i :: 0 <= i < |items| ==> items[i] in def.enum
  {
    ExplodeImplode(',', items);
  }

  /** `isAllowedFilterField` of the current trait: the first same-name definition decides, enum included. */
  predicate IsAllowedFilter(filters: seq<Filter>, f: FilterInput)
  {
    match FilterByName(filters, f.name)
    case None => false
    case Some(def) => ComparisonAllowed(f, def) && EnumAllowed(f, def)
  }

  /** `isAllowedFilterField`/`isAllowedField` of the Rfc14 services: some same-name definition lists the comparison. */
  predicate IsAllowedFilterAnyDefinition(filters: seq<Filter>, f: FilterInput)
  {
    exists i :: 0 <= i < |filters| && filters[i].name == f.name && ComparisonAllowed(f, filters[i])
  }

  /** `isAllowedSortField`/`isAllowedField` of every sort service: some same-name definition lists the direction. */
  predicate IsAllowedSort(sorts: seq<Sort>, s: SortInput)
  {
    exists i :: 0 <= i < |sorts| && sorts[i].name == s.name && s.direction in sorts[i].allowedDirections
  }

  /** Whatever the current validator accepts, the Rfc14 one accepts too. */
  lemma CurrentFilterRuleIsStricter(filters: seq<Filter>, f: FilterInput)
    ensures IsAllowedFilter(filters, f) ==> IsAllowedFilterAnyDefinition(filters, f)
  {
  }

  /** With distinct definition names the current rule is the Rfc14 rule plus the enum check. */
  lemma DistinctNamesFilterRule(filters: seq<Filter>, f: FilterInput)
    requires forall i, j :: 0 <= i < j < |filters| ==> filters[i].name != filters[j].name
    ensures IsAllowedFilter(filters, f) <==>
      exists i :: 0 <= i < |filters| && filters[i].name == f.name && ComparisonAllowed(f, filters[i]) && EnumAllowed(f, filters[i])
  {
    if i :| 0 <= i < |filters| && filters[i].name == f.name {
      assert FirstFilterNamed(filters, f.name, i);
      FilterByNameIsFirst(filters, f.name, i);
    }
  }

  /** A second definition with the same name is never consulted by the current rule, but is by the Rfc14 rule. */
  lemma ShadowedDefinitionDiffers()
    ensures var filters := [Filter("a", [ComparisonEquals], [], None, true), Filter("a", [ComparisonGreaterThan], [], None, true)];
      var f := FilterInput("a", "1", ComparisonGreaterThan, None);
      !IsAllowedFilter(filters, f) && IsAllowedFilterAnyDefinition(filters, f)
  {
    var filters := [Filter("a", [ComparisonEquals], [], None, true), Filter("a", [ComparisonGreaterThan], [], None, true)];
    assert filters[1].name == "a" && ComparisonGreaterThan in filters[1].allowedComparisons;
  }

  /** A value outside the enum is rejected by the current rule and accepted by the Rfc14 rule. */
  lemma EnumOnlyInCurrentRule()
    ensures var filters := [Filter("status", [ComparisonEquals], ["open"], None, true)];
      var f := FilterInput("status", "closed", ComparisonEquals, None);
      !IsAllowedFilter(filters, f) && IsAllowedFilterAnyDefinition(filters, f)
  {
    var filters := [Filter("status", [ComparisonEquals], ["open"], None, true)];
    assert filters[0].name == "status";
  }

  /** A same-name sort definition that rejects the direction does not hide a later one that allows it. */
  lemma SortScanContinues()
    ensures IsAllowedSort([Sort("a", [Ascending], None, true), Sort("a", [Descending], None, true)], SortInput("a", Descending, None))
  {
    var sorts := [Sort("a", [Ascending], None, true), Sort("a", [Descending], None, true)];
    assert sorts[1].name == "a" && Descending in sorts[1].allowedDirections;
  }

  /** `name (comparisons: … // values: …)`, one definition's hint in the current filter message. */
  function FilterHint(def: Filter): string
  {
    var hints := ["comparisons: " + Implode(", ", def.allowedComparisons)] +
      (if |def.enum| > 0 then ["values: " + Implode(", ", def.enum)] else []);
    def.name + " (" + Implode(" // ", hints) + ")"
  }

  /** `name (allowed, list)`, one definition's hint in the Rfc14 filter messages and every sort message. */
  function ListHint(name: string, allowed: seq<string>): string
  {
    name + " (" + Implode(", ", allowed) + ")"
  }

  function FilterHints(filters: seq<Filter>): (r: seq<string>)
    ensures |r| == |filters| && forall i :: 0 <= i < |filters| ==> r[i] == FilterHint(filters[i])
  {
    if |filters| == 0 then [] else [FilterHint(filters[0])] + FilterHints(filters[1..])
  }

  function Rfc14FilterHints(filters: seq<Filter>): (r: seq<string>)
    ensures |r| == |filters| && forall i :: 0 <= i < |filters| ==> r[i] == ListHint(filters[i].name, filters[i].allowedComparisons)
  {
    if |filters| == 0 then [] else [ListHint(filters[0].name, filters[0].allowedComparisons)] + Rfc14FilterHints(filters[1..])
  }

  function SortHints(sorts: seq<Sort>): (r: seq<string>)
    ensures |r| == |sorts| && forall i :: 0 <= i < |sorts| ==> r[i] == ListHint(sorts[i].name, sorts[i].allowedDirections)
  {
    if |sorts| == 0 then [] else [ListHint(sorts[0].name, sorts[0].allowedDirections)] + SortHints(sorts[1..])
  }

  /** The message of the current `FilterException`. */
  function FilterMessage(f: FilterInput, filters: seq<Filter>): string
  {
    "Filter \"" + f.name + "\" with comparison \"" + f.comparison + "\" and value \"" + DisplayValue(f) +
    "\" is not allowed in this request. Available filters: " + Implode(", ", FilterHints(filters))
  }

  /** The message of the Rfc14 `FilterException`. */
  function Rfc14FilterMessage(f: FilterInput, filters: seq<Filter>): string
  {
    "Filter \"" + f.name + "\" with comparison \"" + f.comparison +
    "\" is not allowed in this request. Available filters: " + Implode(", ", Rfc14FilterHints(filters))
  }

  /** The message of every `SortException`. */
  function SortMessage(s: SortInput, sorts: seq<Sort>): string
  {
    "Sort \"" + s.name + "\" with direction \"" + s.direction +
    "\" is not allowed in this request. Available sorts: " + Implode(", ", SortHints(sorts))
  }

  function FirstDisallowedFilter(filters: seq<Filter>, fields: seq<FilterInput>): (r: Option<nat>)
    ensures r.None? <==> forall i :: 0 <= i < |fields| ==> IsAllowedFilter(filters, fields[i])
    ensures r.Some? ==> r.value < |fields| && !IsAllowedFilter(filters, fields[r.value])
    ensures r.Some? ==> forall j :: 0 <= j < r.value ==> IsAllowedFilter(filters, fields[j])
  {
    if |fields| == 0 then None
    else if !IsAllowedFilter(filters, fields[0]) then Some(0)
    else
      var r := FirstDisallowedFilter(filters, fields[1..]);
      if r.Some? then Some(r.value + 1) else None
  }

  function ValidateFilters(filters: seq<Filter>, fields: seq<FilterInput>): (r: Outcome<Failure>)
    ensures r.Pass? <==> forall i :: 0 <= i < |fields| ==> IsAllowedFilter(filters, fields[i])
    ensures r.Fail? ==> exists i :: (0 <= i < |fields| && !IsAllowedFilter(filters, fields[i]) &&
      (forall j :: 0 <= j < i ==> IsAllowedFilter(filters, fields[j])) &&
      r.error == FilterException(FilterMessage(fields[i], filters)))
  {
    match FirstDisallowedFilter(filters, fields)
    case None => Pass
    case Some(i) => Fail(FilterException(FilterMessage(fields[i], filters)))
  }

  /** `handleAllowedFilters`/`handleAllowed` of the Rfc14 services. */
  function FirstDisallowedRfc14Filter(filters: seq<Filter>, fields: seq<FilterInput>): (r: Option<nat>)
    ensures r.None? <==> forall i :: 0 <= i < |fields| ==> IsAllowedFilterAnyDefinition(filters, fields[i])
    ensures r.Some? ==> r.value < |fields| && !IsAllowedFilterAnyDefinition(filters, fields[r.value])
    ensures r.Some? ==> forall j :: 0 <= j < r.value ==> IsAllowedFilterAnyDefinition(filters, fields[j])
  {
    if |fields| == 0 then None
    else if !IsAllowedFilterAnyDefinition(filters, fields[0]) then Some(0)
    else
      var r := FirstDisallowedRfc14Filter(filters, fields[1..]);
      if r.Some? then Some(r.value + 1) else None
  }

  function ValidateRfc14Filters(filters: seq<Filter>, fields: seq<FilterInput>): (r: Outcome<Failure>)
    ensures r.Pass? <==> forall i :: 0 <= i < |fields| ==> IsAllowedFilterAnyDefinition(filters, fields[i])
    ensures r.Fail? ==> exists i :: (0 <= i < |fields| && !IsAllowedFilterAnyDefinition(filters, fields[i]) &&
      (forall j :: 0 <= j < i ==> IsAllowedFilterAnyDefinition(filters, fields[j])) &&
      r.error == FilterException(Rfc14FilterMessage(fields[i], filters)))
  {
    match FirstDisallowedRfc14Filter(filters, fields)
    case None => Pass
    case Some(i) => Fail(FilterException(Rfc14FilterMessage(fields[i], filters)))
  }

  /** `handleAllowedSorts` of every sort service. */
  function FirstDisallowedSort(sorts: seq<Sort>, fields: seq<SortInput>): (r: Option<nat>)
    ensures r.None? <==> forall i :: 0 <= i < |fields| ==> IsAllowedSort(sorts, fields[i])
    ensures r.Some? ==> r.value < |fields| && !IsAllowedSort(sorts, fields[r.value])
    ensures r.Some? ==> forall j :: 0 <= j < r.value ==> IsAllowedSort(sorts, fields[j])
  {
    if |fields| == 0 then None
    else if !IsAllowedSort(sorts, fields[0]) then Some(0)
    else
      var r := FirstDisallowedSort(sorts, fields[1..]);
      if r.Some? then Some(r.value + 1) else None
  }

  function ValidateSorts(sorts: seq<Sort>, fields: seq<SortInput>): (r: Outcome<Failure>)
    ensures r.Pass? <==> forall i :: 0 <= i < |fields| ==> IsAllowedSort(sorts, fields[i])
    ensures r.Fail? ==> exists i :: (0 <= i < |fields| && !IsAllowedSort(sorts, fields[i]) &&
      (forall j :: 0 <= j < i ==> IsAllowedSort(sorts, fields[j])) &&
      r.error == SortException(SortMessage(fields[i], sorts)))
  {
    match FirstDisallowedSort(sorts, fields)
    case None => Pass
    case Some(i) => Fail(SortException(SortMessage(fields[i], sorts)))
  }

  /** The current validator reports the first disallowed field. */
  lemma ValidateFiltersFailsAt(filters: seq<Filter>, fields: seq<FilterInput>, i: int)
    requires 0 <= i < |fields| && !IsAllowedFilter(filters, fields[i])
    requires forall j :: 0 <= j < i ==> IsAllowedFilter(filters, fields[j])
    ensures ValidateFilters(filters, fields) == Fail(FilterException(FilterMessage(fields[i], filters)))
  {
    assert FirstDisallowedFilter(filters, fields) == Some(i);
  }

  lemma ValidateFiltersPasses(filters: seq<Filter>, fields: seq<FilterInput>)
    requires forall j :: 0 <= j < |fields| ==> IsAllowedFilter(filters, fields[j])
    ensures ValidateFilters(filters, fields) == Pass
  {
  }

  /** The sort validator reports the first disallowed field. */
  lemma ValidateSortsFailsAt(sorts: seq<Sort>, fields: seq<SortInput>, i: int)
    requires 0 <= i < |fields| && !IsAllowedSort(sorts, fields[i])
    requires forall j :: 0 <= j < i ==> IsAllowedSort(sorts, fields[j])
    ensures ValidateSorts(sorts, fields) == Fail(SortException(SortMessage(fields[i], sorts)))
  {
    assert FirstDisallowedSort(sorts, fields) == Some(i);
  }

  lemma ValidateSortsPasses(sorts: seq<Sort>, fields: seq<SortInput>)
    requires forall j :: 0 <= j < |fields| ==> IsAllowedSort(sorts, fields[j])
    ensures ValidateSorts(sorts, fields) == Pass
  {
  }

  /** The Rfc14 filter validator reports the first disallowed field. */
  lemma ValidateRfc14FiltersFailsAt(filters: seq<Filter>, fields: seq<FilterInput>, i: int)
    requires 0 <= i < |fields| && !IsAllowedFilterAnyDefinition(filters, fields[i])
    requires forall j :: 0 <= j < i ==> IsAllowedFilterAnyDefinition(filters, fields[j])
    ensures ValidateRfc14Filters(filters, fields) == Fail(FilterException(Rfc14FilterMessage(fields[i], filters)))
  {
    assert FirstDisallowedRfc14Filter(filters, fields) == Some(i);
  }

  lemma ValidateRfc14FiltersPasses(filters: seq<Filter>, fields: seq<FilterInput>)
    requires forall j :: 0 <= j < |fields| ==> IsAllowedFilterAnyDefinition(filters, fields[j])
    ensures ValidateRfc14Filters(filters, fields) == Pass
  {
  }

  /** With the same fields, a pass of the current validator implies a pass of the Rfc14 one. */
  lemma {:induction false} CurrentValidationIsStricter(filters: seq<Filter>, fields: seq<FilterInput>)
    ensures ValidateFilters(filters, fields).Pass? ==> ValidateRfc14Filters(filters, fields).Pass?
  {
    if ValidateFilters(filters, fields).Pass? {
      forall i | 0 <= i < |fields| ensures IsAllowedFilterAnyDefinition(filters, fields[i]) {
        CurrentFilterRuleIsStricter(filters, fields[i]);
      }
    }
  }

  /** `getFilteredField($name, $comparison)`: the index of the first field with the name (and comparison, if given). */
  function FilterFieldIndex(fields: seq<FilterInput>, name: string, comparison: Option<string>): (r: Option<nat>)
    ensures r.None? <==> forall i :: 0 <= i < |fields| ==> !FieldMatches(fields[i], name, comparison)
    ensures r.Some? ==> r.value < |fields| && FieldMatches(fields[r.value], name, comparison)
    ensures r.Some? ==> forall j :: 0 <= j < r.value ==> !FieldMatches(fields[j], name, comparison)
  {
    if |fields| == 0 then None
    else if FieldMatches(fields[0], name, comparison) then Some(0)
    else
      var r := FilterFieldIndex(fields[1..], name, comparison);
      if r.Some? then Some(r.value + 1) else None
  }

  predicate FieldMatches(f: FilterInput, name: string, comparison: Option<string>)
  {
    f.name == name && (comparison.None? || f.comparison == comparison.value)
  }

  /** `getSortedField($name)`: the index of the first sort field with that name. */
  function SortFieldIndex(fields: seq<SortInput>, name: string): (r: Option<nat>)
    ensures r.None? <==> forall i :: 0 <= i < |fields| ==> fields[i].name != name
    ensures r.Some? ==> r.value < |fields| && fields[r.value].name == name
    ensures r.Some? ==> forall j :: 0 <= j < r.value ==> fields[j].name != name
  {
    if |fields| == 0 then None
    else if fields[0].name == name then Some(0)
    else
      var r := SortFieldIndex(fields[1..], name);
      if r.Some? then Some(r.value + 1) else None
  }
}
