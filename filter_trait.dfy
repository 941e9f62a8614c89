/**
 * The filter trait of the `ApiService`: it stores the definitions, parses
 * the request at most once into `FilterField` objects, validates them and
 * applies them to a query builder.
 */
module ApiFilter {
  import opened Wrappers
  import opened Annotation
  import opened Exceptions
  import opened Http
  import opened Doctrine
  import opened Input
  import opened Allowlist
  import opened Parsing
  import opened Translation

  /** `new FilterField()` followed by the four setters, as both loaders do it. */
  method NewFilterField(name: string, value: string, comparison: string, def: Option<Filter>)
    returns (field: FilterField)
    ensures fresh(field) && field.AsInput() == FilterInput(name, value, comparison, def)
  {
    field := new FilterField();
    field := field.SetName(name);
    field := field.SetValue(value);
    field := field.SetComparison(comparison);
    field := field.SetFilter(def);
  }

  /** The `applyToQueryBuilder` loop over the parsed fields; `ps` are the placeholders, one per field. */
  method ApplyFields(qb: QueryBuilder, fields: seq<FilterField>) returns (ghost ps: seq<string>)
    modifies qb
    ensures |ps| == |fields|
    ensures FreshPlaceholders(old(qb.State()), FilterInputs(fields), ps)
    ensures qb.State() == ApplyFilters(old(qb.State()), FilterInputs(fields), ps)
  {
    ghost var inputs := FilterInputs(fields);
    ghost var st := qb.State();
    ps := [];
    var i := 0;
    while i < |fields|
      invariant 0 <= i <= |fields| && |ps| == i
      invariant FilterInputs(fields) == inputs
      invariant FreshPlaceholders(st, inputs[..i], ps)
      invariant qb.State() == ApplyFilters(st, inputs[..i], ps)
    {
      FilterInputsAt(fields, i);
      ghost var p := fields[i].ApplyToQueryBuilder(qb);
      assert inputs[..i + 1][..i] == inputs[..i];
      assert (ps + [p])[..i] == ps;
      ps := ps + [p];
      i := i + 1;
    }
    assert inputs[..i] == inputs;
  }

  /** The `getFilterByName` loop of every filter service: the first definition with the name. */
  method FindFilter(filters: seq<Filter>, name: string) returns (r: Option<Filter>)
    ensures r == FilterByName(filters, name)
  {
    var i := 0;
    while i < |filters|
      invariant 0 <= i <= |filters|
      invariant forall j :: 0 <= j < i ==> filters[j].name != name
    {
      if filters[i].name == name {
        FilterByNameIsFirst(filters, name, i);
        return Some(filters[i]);
      }
      i := i + 1;
    }
    return None;
  }

  class FilterTrait {
    /** The main request (`getMainRequest() ?? Request::createFromGlobals()`). */
    const request: Request
    /** The parsed fields; None until the first `getFilteredFields`. */
    var filterFields: Option<seq<FilterField>>
    /** The registered definitions. */
    var filters: seq<Filter>

    /** The fields currently parsed, as values. */
    function Parsed(): seq<FilterInput>
      reads this, if filterFields.Some? then filterFields.value else []
    {
      if filterFields.Some? then FilterInputs(filterFields.value) else []
    }

    /**
     * The memo: once parsed, the list stays the same; a first parse yields
     * exactly what the request asks for under the current definitions.
     */
    twostate predicate ParsedOnce()
      reads this, if filterFields.Some? then filterFields.value else []
    {
      filterFields.Some? &&
      (old(filterFields).Some? ==> filterFields == old(filterFields)) &&
      (old(filterFields).None? ==> Parsed() == RequestFilters(request, filters))
    }

    constructor (request: Request)
      ensures this.request == request && filterFields == None && filters == []
    {
      this.request := request;
      filterFields := None;
      filters := [];
    }

    /** `getFilterByName` */
    method GetFilterByName(name: string) returns (r: Option<Filter>)
      ensures r == FilterByName(filters, name)
    {
      r := FindFilter(filters, name);
    }

    /** `checkComparison` */
    method CheckComparison(field: FilterField, def: Filter) returns (ok: bool)
      ensures ok == ComparisonAllowed(field.AsInput(), def)
    {
      ok := field.comparison in def.allowedComparisons;
    }

    /** `checkEnum` */
    method CheckEnum(field: FilterField, def: Filter) returns (ok: bool)
      ensures ok == EnumAllowed(field.AsInput(), def)
    {
      if |def.enum| < 1 {
        return true;
      }
      var value := GetValue(field.AsInput());
      if value.List? {
        var k := 0;
        while k < |value.items|
          invariant 0 <= k <= |value.items|
          invariant forall j :: 0 <= j < k ==> value.items[j] in def.enum
        {
          if value.items[k] !in def.enum {
            return false;
          }
          k := k + 1;
        }
        return true;
      }
      return value.text in def.enum;
    }

    /** `isAllowedFilterField` */
    method IsAllowedFilterField(field: FilterField) returns (ok: bool)
      ensures ok == IsAllowedFilter(filters, field.AsInput())
    {
      var i := 0;
      while i < |filters|
        invariant 0 <= i <= |filters|
        invariant forall j :: 0 <= j < i ==> filters[j].name != field.name
      {
        if filters[i].name == field.name {
          FilterByNameIsFirst(filters, field.name, i);
          ok := CheckComparison(field, filters[i]);
          if !ok {
            return false;
          }
          ok := CheckEnum(field, filters[i]);
          return;
        }
        i := i + 1;
      }
      return false;
    }

    /** One `filter[name]` group of `loadFiltersFromQuery`: a new field per (comparison, value) entry. */
    method GroupFields(name: string, entries: seq<(string, string)>) returns (added: seq<FilterField>)
      ensures FilterInputs(added) == GroupFilters(name, entries, FilterByName(filters, name))
    {
      var def := GetFilterByName(name);
      added := [];
      var e := 0;
      while e < |entries|
        invariant 0 <= e <= |entries|
        invariant FilterInputs(added) == GroupFilters(name, entries[..e], def)
      {
        var (comparison, value) := entries[e];
        var field := NewFilterField(name, value, comparison, def);
        GroupFiltersStep(name, entries, def, e);
        FilterInputsAppend(added, field);
        added := added + [field];
        e := e + 1;
      }
      assert entries[..e] == entries;
    }

    /** The fields `loadFiltersFromQuery` appends. */
    method QueryFields() returns (added: seq<FilterField>)
      ensures FilterInputs(added) == Rfc14RequestFilters(request, filters)
    {
      added := [];
      if request.filter.None? {
        return;
      }
      var groups := request.filter.value;
      var g := 0;
      while g < |groups|
        invariant 0 <= g <= |groups|
        invariant FilterInputs(added) == QueryFilters(groups[..g], filters)
      {
        var (name, limitations) := groups[g];
        var more := [];
        if limitations.Some? {
          more := GroupFields(name, limitations.value);
        }
        QueryFiltersStep(groups, filters, g);
        FilterInputsConcat(added, more);
        added := added + more;
        g := g + 1;
      }
      assert groups[..g] == groups;
    }

    /** The fields `loadFiltersFromAttributes` appends: an `eq` field per route attribute naming a definition. */
    method AttributeFields() returns (added: seq<FilterField>)
      ensures FilterInputs(added) == AttributeFilters(request.attributes, filters)
    {
      var attributes := request.attributes;
      added := [];
      var a := 0;
      while a < |attributes|
        invariant 0 <= a <= |attributes|
        invariant FilterInputs(added) == AttributeFilters(attributes[..a], filters)
      {
        var (key, value) := attributes[a];
        var def := GetFilterByName(key);
        AttributeFiltersStep(attributes, filters, a);
        if def.Some? {
          var field := NewFilterField(key, value, ComparisonEquals, def);
          FilterInputsAppend(added, field);
          added := added + [field];
        }
        a := a + 1;
      }
      assert attributes[..a] == attributes;
    }

    /** `loadFiltersFromQuery` */
    method LoadFiltersFromQuery()
      requires filterFields.Some?
      modifies this
      ensures filters == old(filters) && filterFields.Some?
      ensures Parsed() == old(Parsed()) + Rfc14RequestFilters(request, filters)
    {
      var added := QueryFields();
      FilterInputsConcat(filterFields.value, added);
      filterFields := Some(filterFields.value + added);
    }

    /** `loadFiltersFromAttributes` */
    method LoadFiltersFromAttributes()
      requires filterFields.Some?
      modifies this
      ensures filters == old(filters) && filterFields.Some?
      ensures Parsed() == old(Parsed()) + AttributeFilters(request.attributes, filters)
    {
      var added := AttributeFields();
      FilterInputsConcat(filterFields.value, added);
      filterFields := Some(filterFields.value + added);
    }

    /** `getFilteredFields`: parses on the first call only. */
    method GetFilteredFields() returns (fields: seq<FilterField>)
      modifies this
      ensures filters == old(filters) && ParsedOnce() && filterFields == Some(fields)
    {
      if filterFields.None? {
        filterFields := Some([]);
        LoadFiltersFromQuery();
        LoadFiltersFromAttributes();
      }
      fields := filterFields.value;
    }

    /** The search of `getFilteredField`, over given fields. */
    method FindField(fields: seq<FilterField>, name: string, comparison: Option<string>) returns (r: Option<FilterField>)
      ensures var i := FilterFieldIndex(FilterInputs(fields), name, comparison);
        (r.None? <==> i.None?) && (i.Some? ==> r == Some(fields[i.value]))
    {
      ghost var inputs := FilterInputs(fields);
      var k := 0;
      while k < |fields|
        invariant 0 <= k <= |fields|
        invariant forall j :: 0 <= j < k ==> !FieldMatches(inputs[j], name, comparison)
      {
        FilterInputsAt(fields, k);
        if fields[k].name == name && (comparison.None? || fields[k].comparison == comparison.value) {
          return Some(fields[k]);
        }
        k := k + 1;
      }
      return None;
    }

    /** `getFilteredField($name, $comparison)`: the first field with the name (and the comparison, when given). */
    method GetFilteredField(name: string, comparison: Option<string>) returns (r: Option<FilterField>)
      modifies this
      ensures filters == old(filters) && ParsedOnce()
      ensures var i := FilterFieldIndex(Parsed(), name, comparison);
        (r.None? <==> i.None?) && (i.Some? ==> r == Some(filterFields.value[i.value]))
    {
      var fields := GetFilteredFields();
      r := FindField(fields, name, comparison);
    }

    /** `hasFilteredField($name)` */
    method HasFilteredField(name: string) returns (b: bool)
      modifies this
      ensures filters == old(filters) && ParsedOnce()
      ensures b <==> exists i :: 0 <= i < |Parsed()| && Parsed()[i].name == name
    {
      var r := GetFilteredField(name, None);
      b := r.Some?;
    }

    /** The check loop of `handleAllowedFilters`, over given fields. */
    method CheckFields(fields: seq<FilterField>) returns (outcome: Outcome<Failure>)
      ensures outcome == ValidateFilters(filters, FilterInputs(fields))
    {
      ghost var inputs := FilterInputs(fields);
      var i := 0;
      while i < |fields|
        invariant 0 <= i <= |fields|
        invariant forall j :: 0 <= j < i ==> IsAllowedFilter(filters, inputs[j])
      {
        FilterInputsAt(fields, i);
        var ok := IsAllowedFilterField(fields[i]);
        if !ok {
          ValidateFiltersFailsAt(filters, inputs, i);
          return Fail(FilterException(FilterMessage(fields[i].AsInput(), filters)));
        }
        i := i + 1;
      }
      ValidateFiltersPasses(filters, inputs);
      return Pass;
    }

    /** `handleAllowedFilters($filters)`: stores the definitions, then fails at the first disallowed field. */
    method HandleAllowedFilters(defs: seq<Filter>) returns (outcome: Outcome<Failure>)
      modifies this
      ensures filters == defs && ParsedOnce()
      ensures outcome == ValidateFilters(defs, Parsed())
    {
      filters := defs;
      var fields := GetFilteredFields();
      outcome := CheckFields(fields);
    }

    /** `applyFilteredFieldsToQueryBuilder($qb)`; `ps` are the placeholders generated, one per field. */
    method ApplyFilteredFieldsToQueryBuilder(qb: QueryBuilder, ormInstalled: bool)
      returns (failure: Option<Failure>, ghost ps: seq<string>)
      modifies this, qb
      ensures !ormInstalled ==>
        failure == Some(MissingDependencyException(MissingOrmMessage)) && unchanged(this) && unchanged(qb)
      ensures ormInstalled ==> (failure.None? && filters == old(filters) && ParsedOnce() && |ps| == |Parsed()| &&
        FreshPlaceholders(old(qb.State()), Parsed(), ps) &&
        qb.State() == ApplyFilters(old(qb.State()), Parsed(), ps))
    {
      ps := [];
      if !ormInstalled {
        return Some(MissingDependencyException(MissingOrmMessage)), ps;
      }
      var fields := GetFilteredFields();
      ps := ApplyFields(qb, fields);
      failure := None;
    }
  }
}
