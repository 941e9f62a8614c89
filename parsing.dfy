/**
 * What the loaders build from a request, as functions: the filter fields of
 * the `filter` group, the `eq` fields of route attributes, and the sort
 * fields of the `sort` group, each bound to the first definition with its
 * name. The services' loading loops are proved against these.
 */
module Parsing {
  import opened Wrappers
  import opened Annotation
  import opened Http
  import opened Input
  import opened Allowlist

  /** The fields of one `filter[name]` group: one per (comparison, value) pair, in order. */
  function GroupFilters(name: string, entries: seq<(string, string)>, def: Option<Filter>): (r: seq<FilterInput>)
    ensures |r| == |entries|
    ensures forall i :: 0 <= i < |entries| ==> r[i] == FilterInput(name, entries[i].1, entries[i].0, def)
  {
    if |entries| == 0 then []
    else GroupFilters(name, entries[..|entries| - 1], def) + [FilterInput(name, entries[|entries| - 1].1, entries[|entries| - 1].0, def)]
  }

  /** A group whose entry is not an array contributes nothing. */
  function GroupOf(group: (string, Option<seq<(string, string)>>), filters: seq<Filter>): seq<FilterInput>
  {
    if group.1.Some? then GroupFilters(group.0, group.1.value, FilterByName(filters, group.0)) else []
  }

  /** `loadFiltersFromQuery`: the fields of every group, group after group. */
  function QueryFilters(groups: seq<(string, Option<seq<(string, string)>>)>, filters: seq<Filter>): (r: seq<FilterInput>)
    ensures forall k :: 0 <= k < |r| ==> r[k].filter == FilterByName(filters, r[k].name)
  {
    if |groups| == 0 then []
    else QueryFilters(groups[..|groups| - 1], filters) + GroupOf(groups[|groups| - 1], filters)
  }

  /** One more group adds its own fields. */
  lemma QueryFiltersStep(groups: seq<(string, Option<seq<(string, string)>>)>, filters: seq<Filter>, g: int)
    requires 0 <= g < |groups|
    ensures QueryFilters(groups[..g + 1], filters) == QueryFilters(groups[..g], filters) + GroupOf(groups[g], filters)
  {
    assert groups[..g + 1][..g] == groups[..g];
  }

  /** One more entry adds its own field. */
  lemma GroupFiltersStep(name: string, entries: seq<(string, string)>, def: Option<Filter>, e: int)
    requires 0 <= e < |entries|
    ensures GroupFilters(name, entries[..e + 1], def) ==
      GroupFilters(name, entries[..e], def) + [FilterInput(name, entries[e].1, entries[e].0, def)]
  {
    assert entries[..e + 1][..e] == entries[..e];
  }

  /** Every field comes from one (comparison, value) entry of an array group with its name. */
  lemma {:induction false} QueryFiltersSound(groups: seq<(string, Option<seq<(string, string)>>)>, filters: seq<Filter>, k: int)
    requires 0 <= k < |QueryFilters(groups, filters)|
    ensures var f := QueryFilters(groups, filters)[k];
      exists g :: 0 <= g < |groups| && groups[g].0 == f.name && groups[g].1.Some? && (f.comparison, f.value) in groups[g].1.value
  {
    var n := |groups| - 1;
    var front := QueryFilters(groups[..n], filters);
    var f := QueryFilters(groups, filters)[k];
    if k < |front| {
      QueryFiltersSound(groups[..n], filters, k);
      var g :| 0 <= g < n && groups[..n][g].0 == front[k].name && groups[..n][g].1.Some? &&
        (front[k].comparison, front[k].value) in groups[..n][g].1.value;
      assert groups[g] == groups[..n][g];
    } else {
      var entries := groups[n].1.value;
      assert entries[k - |front|] == (f.comparison, f.value);
    }
  }

  /** Every entry of every array group yields a field, bound to the first same-name definition. */
  lemma {:induction false} QueryFiltersComplete(groups: seq<(string, Option<seq<(string, string)>>)>, filters: seq<Filter>, g: int, e: int)
    requires 0 <= g < |groups| && groups[g].1.Some? && 0 <= e < |groups[g].1.value|
    ensures FilterInput(groups[g].0, groups[g].1.value[e].1, groups[g].1.value[e].0, FilterByName(filters, groups[g].0))
      in QueryFilters(groups, filters)
  {
    var n := |groups| - 1;
    if g < n {
      assert groups[..n][g] == groups[g];
      QueryFiltersComplete(groups[..n], filters, g, e);
    } else {
      assert GroupOf(groups[n], filters)[e] ==
        FilterInput(groups[g].0, groups[g].1.value[e].1, groups[g].1.value[e].0, FilterByName(filters, groups[g].0));
    }
  }

  /** `loadFiltersFromAttributes`: an `eq` field per route attribute whose key names a definition. */
  function AttributeFilters(attributes: seq<(string, string)>, filters: seq<Filter>): (r: seq<FilterInput>)
    ensures forall k :: 0 <= k < |r| ==>
      r[k].comparison == ComparisonEquals && r[k].filter.Some? && r[k].filter == FilterByName(filters, r[k].name)
  {
    if |attributes| == 0 then []
    else
      var (key, value) := attributes[|attributes| - 1];
      var front := AttributeFilters(attributes[..|attributes| - 1], filters);
      front + (if FilterByName(filters, key).Some? then [FilterInput(key, value, ComparisonEquals, FilterByName(filters, key))] else [])
  }

  /** One more attribute adds at most its own field. */
  lemma AttributeFiltersStep(attributes: seq<(string, string)>, filters: seq<Filter>, a: int)
    requires 0 <= a < |attributes|
    ensures AttributeFilters(attributes[..a + 1], filters) == AttributeFilters(attributes[..a], filters) +
      (if FilterByName(filters, attributes[a].0).Some?
       then [FilterInput(attributes[a].0, attributes[a].1, ComparisonEquals, FilterByName(filters, attributes[a].0))]
       else [])
  {
    assert attributes[..a + 1][..a] == attributes[..a];
  }

  /** Every attribute field comes from a route attribute with that key and value. */
  lemma {:induction false} AttributeFiltersSound(attributes: seq<(string, string)>, filters: seq<Filter>, k: int)
    requires 0 <= k < |AttributeFilters(attributes, filters)|
    ensures var f := AttributeFilters(attributes, filters)[k];
      (f.name, f.value) in attributes
  {
    var n := |attributes| - 1;
    var front := AttributeFilters(attributes[..n], filters);
    var f := AttributeFilters(attributes, filters)[k];
    if k < |front| {
      AttributeFiltersSound(attributes[..n], filters, k);
      assert front[k] == f;
      assert attributes[..n] <= attributes;
    } else {
      assert f.name == attributes[n].0 && f.value == attributes[n].1;
    }
  }

  /** Every attribute naming a definition becomes an `eq` field with the attribute's value. */
  lemma {:induction false} AttributeFiltersComplete(attributes: seq<(string, string)>, filters: seq<Filter>, a: int)
    requires 0 <= a < |attributes| && FilterByName(filters, attributes[a].0).Some?
    ensures FilterInput(attributes[a].0, attributes[a].1, ComparisonEquals, FilterByName(filters, attributes[a].0))
      in AttributeFilters(attributes, filters)
  {
    var n := |attributes| - 1;
    var front := AttributeFilters(attributes[..n], filters);
    var x := FilterInput(attributes[a].0, attributes[a].1, ComparisonEquals, FilterByName(filters, attributes[a].0));
    if a < n {
      assert attributes[..n][a] == attributes[a];
      AttributeFiltersComplete(attributes[..n], filters, a);
      assert front <= AttributeFilters(attributes, filters);
    } else {
      assert AttributeFilters(attributes, filters) == front + [x];
    }
  }

  /** Attributes that name no definition add nothing. */
  lemma {:induction false} UndeclaredAttributesIgnored(attributes: seq<(string, string)>, filters: seq<Filter>)
    requires forall a :: 0 <= a < |attributes| ==> FilterByName(filters, attributes[a].0).None?
    ensures AttributeFilters(attributes, filters) == []
  {
    if |attributes| > 0 {
      var n := |attributes| - 1;
      assert forall a :: 0 <= a < n ==> attributes[..n][a] == attributes[a];
      UndeclaredAttributesIgnored(attributes[..n], filters);
    }
  }

  /** The query fields of the Rfc14 services: a missing or non-array group gives none. */
  function Rfc14RequestFilters(request: Request, filters: seq<Filter>): seq<FilterInput>
  {
    if request.filter.Some? then QueryFilters(request.filter.value, filters) else []
  }

  /** The current filter trait: the query fields, then the route-attribute fields. */
  function RequestFilters(request: Request, filters: seq<Filter>): (r: seq<FilterInput>)
    ensures |r| == |Rfc14RequestFilters(request, filters)| + |AttributeFilters(request.attributes, filters)|
    ensures r[..|Rfc14RequestFilters(request, filters)|] == Rfc14RequestFilters(request, filters)
  {
    Rfc14RequestFilters(request, filters) + AttributeFilters(request.attributes, filters)
  }

  /** When no route attribute names a definition, the current trait parses exactly what the Rfc14 services parse. */
  lemma SameFieldsWithoutDeclaredAttributes(request: Request, filters: seq<Filter>)
    requires forall a :: 0 <= a < |request.attributes| ==> FilterByName(filters, request.attributes[a].0).None?
    ensures RequestFilters(request, filters) == Rfc14RequestFilters(request, filters)
  {
    UndeclaredAttributesIgnored(request.attributes, filters);
  }

  /** `loadSortsFromQuery`: one field per key of the sort group, in order, bound to the first same-name definition. */
  function SortFields(entries: seq<(string, string)>, sorts: seq<Sort>): (r: seq<SortInput>)
    ensures |r| == |entries|
    ensures forall i :: 0 <= i < |entries| ==> r[i] == SortInput(entries[i].0, entries[i].1, SortByName(sorts, entries[i].0))
  {
    if |entries| == 0 then []
    else
      var (name, direction) := entries[|entries| - 1];
      SortFields(entries[..|entries| - 1], sorts) + [SortInput(name, direction, SortByName(sorts, name))]
  }

  /** One more sort entry adds its own field. */
  lemma SortFieldsStep(entries: seq<(string, string)>, sorts: seq<Sort>, e: int)
    requires 0 <= e < |entries|
    ensures SortFields(entries[..e + 1], sorts) ==
      SortFields(entries[..e], sorts) + [SortInput(entries[e].0, entries[e].1, SortByName(sorts, entries[e].0))]
  {
    assert entries[..e + 1][..e] == entries[..e];
  }

  /** No sort fields when the sort group is missing or not an array. */
  function RequestSorts(request: Request, sorts: seq<Sort>): seq<SortInput>
  {
    if request.sort.Some? then SortFields(request.sort.value, sorts) else []
  }
}
