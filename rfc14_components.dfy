/**
 * The three stand-alone services of the Rfc14 bundle: filters, sorts and
 * pagination, each reading the main request on its own. They follow the
 * `ApiService` traits with these differences: the filter fields are the
 * Rfc14 `FilterField`s and any same-name definition may allow a
 * comparison; the sort loader never stores what it builds; the pagination
 * has no `maxEntries` fallback and counts without `distinct()` and
 * without catching a failing count.
 */
module Rfc14Components {
  import opened Wrappers
  import opened Text
  import opened Annotation
  import opened Exceptions
  import opened Http
  import opened Doctrine
  import opened Input
  import opened LegacyInput
  import opened Allowlist
  import opened Parsing
  import opened Translation
  import opened ApiFilter
  import opened ApiSort
  import opened Pagination

  /** `new FilterField()` of the Rfc14 bundle followed by the four setters. */
  method NewRfc14FilterField(name: string, value: string, comparison: string, def: Option<Filter>)
    returns (field: Rfc14FilterField)
    ensures fresh(field) && field.AsInput() == FilterInput(name, value, comparison, def)
  {
    field := new Rfc14FilterField();
    field := field.SetName(name);
    field := field.SetValue(value);
    field := field.SetComparison(comparison);
    field := field.SetFilter(def);
  }

  /** One turn of the loop below: field `i` applied after a failure-free prefix. */
  method ApplyRfc14Next(qb: QueryBuilder, fields: seq<Rfc14FilterField>, i: int,
    ghost st: QueryState, ghost ps: seq<string>) returns (failure: Option<Failure>, ghost ps': seq<string>)
    requires 0 <= i < |fields| && |ps| == i
    requires ApplyRfc14Filters(st, Rfc14FilterInputs(fields)[..i], ps) == (qb.State(), None)
    requires Rfc14FreshPlaceholders(st, Rfc14FilterInputs(fields)[..i], ps)
    modifies qb
    ensures |ps'| == i + 1
    ensures ApplyRfc14Filters(st, Rfc14FilterInputs(fields)[..i + 1], ps') == (qb.State(), failure)
    ensures Rfc14FreshPlaceholders(st, Rfc14FilterInputs(fields)[..i + 1], ps')
  {
    ghost var inputs := Rfc14FilterInputs(fields);
    Rfc14FilterInputsAt(fields, i);
    ghost var p;
    failure, p := fields[i].ApplyToQueryBuilder(qb);
    Rfc14FiltersStep(st, inputs, ps, p, i);
    ps' := ps + [p];
  }

  /**
   * The `applyToQueryBuilder` loop over Rfc14 filter fields: it ends at the
   * first field whose `getValue` overflows the stack. `ps` holds the
   * placeholders, padded past a failure.
   */
  method ApplyRfc14Fields(qb: QueryBuilder, fields: seq<Rfc14FilterField>)
    returns (failure: Option<Failure>, ghost ps: seq<string>)
    modifies qb
    ensures |ps| == |fields|
    ensures Rfc14FreshPlaceholders(old(qb.State()), Rfc14FilterInputs(fields), ps)
    ensures (qb.State(), failure) == ApplyRfc14Filters(old(qb.State()), Rfc14FilterInputs(fields), ps)
  {
    ghost var inputs := Rfc14FilterInputs(fields);
    ghost var st := qb.State();
    ps := [];
    var i := 0;
    while i < |fields|
      invariant 0 <= i <= |fields| && |ps| == i
      invariant Rfc14FilterInputs(fields) == inputs
      invariant Rfc14FreshPlaceholders(st, inputs[..i], ps)
      invariant ApplyRfc14Filters(st, inputs[..i], ps) == (qb.State(), None)
    {
      var f;
      f, ps := ApplyRfc14Next(qb, fields, i, st, ps);
      i := i + 1;
      if f.Some? {
        ghost var unreached := seq(|fields| - i, _ => "");
        Rfc14PadAfterFailure(st, inputs, ps, unreached);
        return f, ps + unreached;
      }
    }
    assert inputs[..i] == inputs;
    failure := None;
  }

  /** The search of `get($name)`, over given Rfc14 fields. */
  method FindRfc14Field(fields: seq<Rfc14FilterField>, name: string) returns (r: Option<Rfc14FilterField>)
    ensures var i := FilterFieldIndex(Rfc14FilterInputs(fields), name, None);
      (r.None? <==> i.None?) && (i.Some? ==> r == Some(fields[i.value]))
  {
    ghost var inputs := Rfc14FilterInputs(fields);
    var k := 0;
    while k < |fields|
      invariant 0 <= k <= |fields|
      invariant forall j :: 0 <= j < k ==> !FieldMatches(inputs[j], name, None)
    {
      Rfc14FilterInputsAt(fields, k);
      if fields[k].name == name {
        return Some(fields[k]);
      }
      k := k + 1;
    }
    return None;
  }

  /** `FilterFromRequestQuery`, also the filter half of `Rfc14Service`. */
  class FilterFromRequestQuery {
    const request: Request
    var filterFields: Option<seq<Rfc14FilterField>>
    /** The registered definitions; PHP's initial null iterates like []. */
    var filters: seq<Filter>

    function Parsed(): seq<FilterInput>
      reads this, if filterFields.Some? then filterFields.value else []
    {
      if filterFields.Some? then Rfc14FilterInputs(filterFields.value) else []
    }

    /** The memo: a parsed list stays; a first parse yields the fields of the `filter` group. */
    twostate predicate ParsedOnce()
      reads this, if filterFields.Some? then filterFields.value else []
    {
      filterFields.Some? &&
      (old(filterFields).Some? ==> filterFields == old(filterFields)) &&
      (old(filterFields).None? ==> Parsed() == Rfc14RequestFilters(request, filters))
    }

    constructor (request: Request)
      ensures this.request == request && filterFields == None && filters == []
    {
      this.request := request;
      filterFields := None;
      filters := [];
    }

    /** `getFilterByName` */
    method GetFilterByName(name: string) returns (r: Option<Filter>)
      ensures r == FilterByName(filters, name)
    {
      r := FindFilter(filters, name);
    }

    /** `isAllowedField`: the scan goes on past a same-name definition that rejects the comparison; no enum check. */
    method IsAllowedField(field: Rfc14FilterField) returns (ok: bool)
      ensures ok == IsAllowedFilterAnyDefinition(filters, field.AsInput())
    {
      var i := 0;
      while i < |filters|
        invariant 0 <= i <= |filters|
        invariant forall j :: 0 <= j < i ==> !(filters[j].name == field.name && ComparisonAllowed(field.AsInput(), filters[j]))
      {
        if filters[i].name != field.name {
          i := i + 1;
          continue;
        }
        if field.comparison in filters[i].allowedComparisons {
          return true;
        }
        i := i + 1;
      }
      return false;
    }

    /** One `filter[name]` group: a new field per (comparison, value) entry. */
    method GroupFields(name: string, entries: seq<(string, string)>) returns (added: seq<Rfc14FilterField>)
      ensures Rfc14FilterInputs(added) == GroupFilters(name, entries, FilterByName(filters, name))
    {
      var def := GetFilterByName(name);
      added := [];
      var e := 0;
      while e < |entries|
        invariant 0 <= e <= |entries|
        invariant Rfc14FilterInputs(added) == GroupFilters(name, entries[..e], def)
      {
        var (comparison, value) := entries[e];
        var field := NewRfc14FilterField(name, value, comparison, def);
        GroupFiltersStep(name, entries, def, e);
        Rfc14FilterInputsAppend(added, field);
        added := added + [field];
        e := e + 1;
      }
      assert entries[..e] == entries;
    }

    /** The fields of the `filter` group; a missing group or a non-array entry gives none. */
    method QueryFields() returns (added: seq<Rfc14FilterField>)
      ensures Rfc14FilterInputs(added) == Rfc14RequestFilters(request, filters)
    {
      added := [];
      if request.filter.None? {
        return;
      }
      var groups := request.filter.value;
      var g := 0;
      while g < |groups|
        invariant 0 <= g <= |groups|
        invariant Rfc14FilterInputs(added) == QueryFilters(groups[..g], filters)
      {
        var (name, limitations) := groups[g];
        var more := [];
        if limitations.Some? {
          more := GroupFields(name, limitations.value);
        }
        QueryFiltersStep(groups, filters, g);
        Rfc14FilterInputsConcat(added, more);
        added := added + more;
        g := g + 1;
      }
      assert groups[..g] == groups;
    }

    /** `loadFiltersFromQuery`: resets the list and fills it from the `filter` group. */
    method LoadFiltersFromQuery()
      modifies this
      ensures filters == old(filters) && filterFields.Some?
      ensures Parsed() == Rfc14RequestFilters(request, filters)
    {
      filterFields := Some([]);
      var added := QueryFields();
      filterFields := Some(added);
    }

    /** `getAll`: parses on the first call only. */
    method GetAll() returns (fields: seq<Rfc14FilterField>)
      modifies this
      ensures filters == old(filters) && ParsedOnce() && filterFields == Some(fields)
    {
      if filterFields.None? {
        LoadFiltersFromQuery();
      }
      fields := filterFields.value;
    }

    /** `get($name)`: the first parsed field with that name. */
    method Get(name: string) returns (r: Option<Rfc14FilterField>)
      modifies this
      ensures filters == old(filters) && ParsedOnce()
      ensures var i := FilterFieldIndex(Parsed(), name, None);
        (r.None? <==> i.None?) && (i.Some? ==> r == Some(filterFields.value[i.value]))
    {
      var fields := GetAll();
      r := FindRfc14Field(fields, name);
    }

    /** `has($name)` */
    method Has(name: string) returns (b: bool)
      modifies this
      ensures filters == old(filters) && ParsedOnce()
      ensures b <==> exists i :: 0 <= i < |Parsed()| && Parsed()[i].name == name
    {
      var r := Get(name);
      b := r.Some?;
    }

    /** The check loop of `handleAllowed`, over given fields. */
    method CheckFields(fields: seq<Rfc14FilterField>) returns (outcome: Outcome<Failure>)
      ensures outcome == ValidateRfc14Filters(filters, Rfc14FilterInputs(fields))
    {
      ghost var inputs := Rfc14FilterInputs(fields);
      var i := 0;
      while i < |fields|
        invariant 0 <= i <= |fields|
        invariant forall j :: 0 <= j < i ==> IsAllowedFilterAnyDefinition(filters, inputs[j])
      {
        Rfc14FilterInputsAt(fields, i);
        var ok := IsAllowedField(fields[i]);
        if !ok {
          ValidateRfc14FiltersFailsAt(filters, inputs, i);
          return Fail(FilterException(Rfc14FilterMessage(fields[i].AsInput(), filters)));
        }
        i := i + 1;
      }
      ValidateRfc14FiltersPasses(filters, inputs);
      return Pass;
    }

    /** `handleAllowed($filters)`: stores the definitions, then fails at the first disallowed field. */
    method HandleAllowed(defs: seq<Filter>) returns (outcome: Outcome<Failure>)
      modifies this
      ensures filters == defs && ParsedOnce()
      ensures outcome == ValidateRfc14Filters(defs, Parsed())
    {
      filters := defs;
      var fields := GetAll();
      outcome := CheckFields(fields);
    }

    /** `applyToQueryBuilder($qb)`: every field in parse order, up to the first that fails. */
    method ApplyToQueryBuilder(qb: QueryBuilder) returns (failure: Option<Failure>, ghost ps: seq<string>)
      modifies this, qb
      ensures filters == old(filters) && ParsedOnce() && |ps| == |Parsed()|
      ensures Rfc14FreshPlaceholders(old(qb.State()), Parsed(), ps)
      ensures (qb.State(), failure) == ApplyRfc14Filters(old(qb.State()), Parsed(), ps)
    {
      var fields := GetAll();
      failure, ps := ApplyRfc14Fields(qb, fields);
    }
  }

  /** The check loop of `SortFromRequestQuery::handleAllowed`, whose message calls the undefined `getComparison`. */
  method CheckSortFieldsCallingGetComparison(sorts: seq<Sort>, fields: seq<SortField>) returns (outcome: Outcome<Failure>)
    ensures outcome.Pass? <==> ValidateSorts(sorts, SortInputs(fields)).Pass?
    ensures outcome.Fail? ==> outcome.error == UndefinedMethod("getComparison")
  {
    ghost var inputs := SortInputs(fields);
    var i := 0;
    while i < |fields|
      invariant 0 <= i <= |fields|
      invariant forall j :: 0 <= j < i ==> IsAllowedSort(sorts, inputs[j])
    {
      SortInputsAt(fields, i);
      var ok := AllowsSortField(sorts, fields[i]);
      if !ok {
        return Fail(UndefinedMethod("getComparison"));
      }
      i := i + 1;
    }
    return Pass;
  }

  /** `SortFromRequestQuery`: its loader builds fields and drops them, so the list is always empty. */
  class SortFromRequestQuery {
    const request: Request
    var sortFields: Option<seq<SortField>>
    var sorts: seq<Sort>

    /** Unparsed, or parsed into the empty list. */
    predicate Valid()
      reads this
    {
      sortFields.None? || sortFields == Some([])
    }

    constructor (request: Request)
      ensures Valid() && this.request == request && sortFields == None && sorts == []
    {
      this.request := request;
      sortFields := None;
      sorts := [];
    }

    /** `getSortByName` */
    method GetSortByName(name: string) returns (r: Option<Sort>)
      ensures r == SortByName(sorts, name)
    {
      r := FindSort(sorts, name);
    }

    /** `isAllowedField`: some same-name definition lists the direction. */
    method IsAllowedField(field: SortField) returns (ok: bool)
      ensures ok == IsAllowedSort(sorts, field.AsInput())
    {
      ok := AllowsSortField(sorts, field);
    }

    /** `loadSortsFromQuery`: a field per requested sort is built, none is appended. */
    method LoadSortsFromQuery()
      modifies this
      ensures sorts == old(sorts) && sortFields == Some([])
    {
      sortFields := Some([]);
      if request.sort.None? {
        return;
      }
      var entries := request.sort.value;
      var e := 0;
      while e < |entries|
        invariant 0 <= e <= |entries| && sorts == old(sorts) && sortFields == Some([])
      {
        var (name, direction) := entries[e];
        var def := GetSortByName(name);
        var field := NewSortField(name, direction, def);
        e := e + 1;
      }
    }

    /** `getAll`: parses on the first call; the result is always empty. */
    method GetAll() returns (fields: seq<SortField>)
      requires Valid()
      modifies this
      ensures Valid() && sorts == old(sorts) && sortFields == Some([]) && fields == []
    {
      if sortFields.None? {
        LoadSortsFromQuery();
      }
      fields := sortFields.value;
    }

    /** `handleAllowed($sorts)`: stores the definitions and, with nothing parsed, never fails. */
    method HandleAllowed(defs: seq<Sort>) returns (outcome: Outcome<Failure>)
      requires Valid()
      modifies this
      ensures Valid() && sorts == defs && sortFields == Some([]) && outcome == Pass
    {
      sorts := defs;
      var fields := GetAll();
      outcome := CheckSortFieldsCallingGetComparison(sorts, fields);
    }

    /** `get($name)`: always null. */
    method Get(name: string) returns (r: Option<SortField>)
      requires Valid()
      modifies this
      ensures Valid() && sorts == old(sorts) && r.None?
    {
      var fields := GetAll();
      r := FindSortField(fields, name);
    }

    /** `has($name)`: always false. */
    method Has(name: string) returns (b: bool)
      requires Valid()
      modifies this
      ensures Valid() && sorts == old(sorts) && !b
    {
      var r := Get(name);
      b := r.Some?;
    }

    /** `applyToQueryBuilder($qb)`: nothing to apply. */
    method ApplyToQueryBuilder(qb: QueryBuilder)
      requires Valid()
      modifies this, qb
      ensures Valid() && sorts == old(sorts) && qb.State() == old(qb.State())
    {
      var fields := GetAll();
      ApplySortFields(qb, fields);
    }
  }

  /** `PaginationFromRequestQuery`, also the pagination half of `Rfc14Service`. */
  class PaginationFromRequestQuery {
    const request: Request
    var pagination: Option<Annotation.Pagination>
    var offset: Option<int>
    var limit: Option<int>
    var total: Option<int>

    function Fields(): Window
      reads this
    {
      Window(offset, limit)
    }

    /** What `parsePagination` does to the current fields: no `maxEntries` fallback. */
    function Parsed(): Result<Window, Failure>
      reads this
    {
      ParsePagination(request.limit, pagination, false, Fields())
    }

    constructor (request: Request)
      ensures this.request == request && pagination == None && Fields() == Window(None, None) && total == None
    {
      this.request := request;
      pagination, offset, limit, total := None, None, None, None;
    }

    /** `handleIsPaginatable` */
    method HandleIsPaginatable(p: Annotation.Pagination)
      modifies this
      ensures pagination == Some(p) && Fields() == old(Fields()) && total == old(total)
    {
      pagination := Some(p);
    }

    /** `parsePagination`; an absent parameter changes nothing. */
    method ParsePaginationFields() returns (failure: Option<Failure>)
      modifies this
      ensures pagination == old(pagination) && total == old(total)
      ensures old(Parsed()).Err? ==> failure == Some(old(Parsed()).error) && Fields() == old(Fields())
      ensures old(Parsed()).Ok? ==> failure.None? && Fields() == old(Parsed()).value
    {
      var parameter := request.limit;
      if parameter.Some? {
        if pagination.None? {
          return Some(PaginationException(LimitNotAvailableMessage));
        }
        var parts := Explode(',', parameter.value);
        if |parts| == 1 {
          limit := Some(ToInt(parts[0]));
        } else if |parts| == 2 {
          offset := Some(ToInt(parts[0]));
          limit := Some(ToInt(parts[1]));
        } else {
          return Some(PaginationException(InvalidLimitMessage));
        }
      }
      return None;
    }

    /** `getOffset`: parses, then the stored offset or 0. */
    method GetOffset() returns (r: Result<int, Failure>)
      modifies this
      ensures pagination == old(pagination) && total == old(total)
      ensures old(Parsed()).Err? ==> r == Err(old(Parsed()).error) && Fields() == old(Fields())
      ensures old(Parsed()).Ok? ==> Fields() == old(Parsed()).value && r == Ok(ResolvedOffset(Fields()))
    {
      var failure := ParsePaginationFields();
      if failure.Some? {
        return Err(failure.value);
      }
      return Ok(offset.GetOr(0));
    }

    /** `getLimit`: parses, then the stored limit, which stays null without a `limit` parameter. */
    method GetLimit() returns (r: Result<Option<int>, Failure>)
      modifies this
      ensures pagination == old(pagination) && total == old(total)
      ensures old(Parsed()).Err? ==> r == Err(old(Parsed()).error) && Fields() == old(Fields())
      ensures old(Parsed()).Ok? ==> Fields() == old(Parsed()).value && r == Ok(ResolvedLimit(Fields(), pagination, false))
    {
      var failure := ParsePaginationFields();
      if failure.Some? {
        return Err(failure.value);
      }
      return Ok(limit);
    }

    /** `setTotal` */
    method SetTotal(t: int)
      modifies this
      ensures total == Some(t) && pagination == old(pagination) && Fields() == old(Fields())
    {
      total := Some(t);
    }

    /** `getTotal`: null until a total is stored. */
    method GetTotal() returns (r: Option<int>)
      ensures r == total
    {
      r := total;
    }

    /**
     * `applyToQueryBuilder($qb)`: counts on a projected clone whether or
     * not a Pagination is registered, then sets limit and offset.
     */
    method ApplyToQueryBuilder(qb: QueryBuilder, count: QueryState -> Option<int>)
      returns (failure: Option<Failure>, ghost counted: Option<QueryState>)
      modifies this, qb
      ensures ApplyEffect(old(qb.State()), count, counted, failure, qb.State())
    {
      var totalQueryBuilder := qb.Clone();
      totalQueryBuilder.Select(CountProjection(totalQueryBuilder.rootAlias));
      counted := Some(totalQueryBuilder.State());
      var t := count(totalQueryBuilder.State());
      if t.None? {
        return Some(CountQueryFailed), counted;
      }
      SetTotal(t.value);
      var l := GetLimit();
      if l.Err? {
        return Some(l.error), counted;
      }
      qb.SetMaxResults(l.value);
      ghost var w := Fields();
      ParseIsIdempotent(request.limit, pagination, false, old(Fields()));
      var o := GetOffset();
      assert Fields() == w;
      qb.SetFirstResult(o.value);
      failure := None;
    }

    /**
     * The effect of the count-then-limit step on a builder in state `st`:
     * the clone counted is `st` projected onto `COUNT(DISTINCT alias)`, with
     * no `distinct()`; a failing count ends the call with nothing else
     * changed; otherwise the total is stored and, unless parsing fails,
     * limit and offset are set.
     */
    twostate predicate ApplyEffect(st: QueryState, count: QueryState -> Option<int>, new counted: Option<QueryState>,
      new failure: Option<Failure>, new result: QueryState)
      reads this
    {
      var countState := st.(select := CountProjection(st.rootAlias));
      var t := count(countState);
      var parsed := old(Parsed());
      counted == Some(countState) && pagination == old(pagination) &&
      (t.None? ==> (failure == Some(CountQueryFailed) && result == st && Fields() == old(Fields()) && total == old(total))) &&
      (t.Some? ==> (total == t &&
        (parsed.Err? ==> (failure == Some(parsed.error) && result == st && Fields() == old(Fields()))) &&
        (parsed.Ok? ==> (failure.None? && Fields() == parsed.value &&
          result == st.(maxResults := ResolvedLimit(parsed.value, pagination, false),
                        firstResult := ResolvedOffset(parsed.value))))))
    }
  }
}
