/**
 * The sort trait: it stores the definitions, parses the `sort` group at
 * most once into `SortField` objects, validates them and applies them in
 * parse order. The current `ApiService` trait and the Rfc14 trait run the
 * same steps; only the current one checks for the ORM before applying.
 */
module ApiSort {
  import opened Wrappers
  import opened Annotation
  import opened Exceptions
  import opened Http
  import opened Doctrine
  import opened Input
  import opened Allowlist
  import opened Parsing
  import opened Translation

  /** `new SortField()` followed by the three setters. */
  method NewSortField(name: string, direction: string, def: Option<Sort>) returns (field: SortField)
    ensures fresh(field) && field.AsInput() == SortInput(name, direction, def)
  {
    field := new SortField();
    field := field.SetName(name);
    field := field.SetDirection(direction);
    field := field.SetSort(def);
  }

  /** The `applyToQueryBuilder` loop over the parsed sort fields, in order. */
  method ApplySortFields(qb: QueryBuilder, fields: seq<SortField>)
    modifies qb
    ensures qb.State() == ApplySorts(old(qb.State()), SortInputs(fields))
  {
    ghost var inputs := SortInputs(fields);
    ghost var st := qb.State();
    var i := 0;
    while i < |fields|
      invariant 0 <= i <= |fields|
      invariant SortInputs(fields) == inputs
      invariant qb.State() == ApplySorts(st, inputs[..i])
    {
      SortInputsAt(fields, i);
      fields[i].ApplyToQueryBuilder(qb);
      assert inputs[..i + 1][..i] == inputs[..i];
      i := i + 1;
    }
    assert inputs[..i] == inputs;
  }

  /** The search of `getSortedField`, over given fields. */
  method FindSortField(fields: seq<SortField>, name: string) returns (r: Option<SortField>)
    ensures var i := SortFieldIndex(SortInputs(fields), name);
      (r.None? <==> i.None?) && (i.Some? ==> r == Some(fields[i.value]))
  {
    ghost var inputs := SortInputs(fields);
    var k := 0;
    while k < |fields|
      invariant 0 <= k <= |fields|
      invariant forall j :: 0 <= j < k ==> inputs[j].name != name
    {
      SortInputsAt(fields, k);
      if fields[k].name == name {
        return Some(fields[k]);
      }
      k := k + 1;
    }
    return None;
  }

  /** The `getSortByName` loop of every sort service: the first definition with the name. */
  method FindSort(sorts: seq<Sort>, name: string) returns (r: Option<Sort>)
    ensures r == SortByName(sorts, name)
  {
    var i := 0;
    while i < |sorts|
      invariant 0 <= i <= |sorts|
      invariant forall j :: 0 <= j < i ==> sorts[j].name != name
    {
      if sorts[i].name == name {
        SortByNameIsFirst(sorts, name, i);
        return Some(sorts[i]);
      }
      i := i + 1;
    }
    return None;
  }

  /** The `isAllowedSortField`/`isAllowedField` loop of every sort service. */
  method AllowsSortField(sorts: seq<Sort>, field: SortField) returns (ok: bool)
    ensures ok == IsAllowedSort(sorts, field.AsInput())
  {
    var i := 0;
    while i < |sorts|
      invariant 0 <= i <= |sorts|
      invariant forall j :: 0 <= j < i ==> !(sorts[j].name == field.name && field.direction in sorts[j].allowedDirections)
    {
      if sorts[i].name != field.name {
        i := i + 1;
        continue;
      }
      if field.direction in sorts[i].allowedDirections {
        return true;
      }
      i := i + 1;
    }
    return false;
  }

  class SortTrait {
    /** The main request. */
    const request: Request
    /** The parsed fields; None until the first `getSortedFields`. */
    var sortFields: Option<seq<SortField>>
    /** The registered definitions. */
    var sorts: seq<Sort>

    /** The fields currently parsed, as values. */
    function Parsed(): seq<SortInput>
      reads this, if sortFields.Some? then sortFields.value else []
    {
      if sortFields.Some? then SortInputs(sortFields.value) else []
    }

    /** The memo: a parsed list stays; a first parse yields what the request asks for. */
    twostate predicate ParsedOnce()
      reads this, if sortFields.Some? then sortFields.value else []
    {
      sortFields.Some? &&
      (old(sortFields).Some? ==> sortFields == old(sortFields)) &&
      (old(sortFields).None? ==> Parsed() == RequestSorts(request, sorts))
    }

    constructor (request: Request)
      ensures this.request == request && sortFields == None && sorts == []
    {
      this.request := request;
      sortFields := None;
      sorts := [];
    }

    /** `getSortByName` */
    method GetSortByName(name: string) returns (r: Option<Sort>)
      ensures r == SortByName(sorts, name)
    {
      r := FindSort(sorts, name);
    }

    /** `isAllowedSortField`: a same-name definition rejecting the direction does not end the scan. */
    method IsAllowedSortField(field: SortField) returns (ok: bool)
      ensures ok == IsAllowedSort(sorts, field.AsInput())
    {
      ok := AllowsSortField(sorts, field);
    }

    /** The fields `loadSortsFromQuery` creates: one per key of the sort group. */
    method QuerySortFields() returns (added: seq<SortField>)
      ensures SortInputs(added) == RequestSorts(request, sorts)
    {
      added := [];
      if request.sort.None? {
        return;
      }
      var entries := request.sort.value;
      var e := 0;
      while e < |entries|
        invariant 0 <= e <= |entries|
        invariant SortInputs(added) == SortFields(entries[..e], sorts)
      {
        var (name, direction) := entries[e];
        var def := GetSortByName(name);
        var field := NewSortField(name, direction, def);
        SortFieldsStep(entries, sorts, e);
        SortInputsAppend(added, field);
        added := added + [field];
        e := e + 1;
      }
      assert entries[..e] == entries;
    }

    /** `loadSortsFromQuery`: resets the list, then appends a field per requested sort. */
    method LoadSortsFromQuery()
      modifies this
      ensures sorts == old(sorts) && sortFields.Some?
      ensures Parsed() == RequestSorts(request, sorts)
    {
      sortFields := Some([]);
      var added := QuerySortFields();
      sortFields := Some(added);
    }

    /** `getSortedFields`: parses on the first call only. */
    method GetSortedFields() returns (fields: seq<SortField>)
      modifies this
      ensures sorts == old(sorts) && ParsedOnce() && sortFields == Some(fields)
    {
      if sortFields.None? {
        LoadSortsFromQuery();
      }
      fields := sortFields.value;
    }

    /** `getSortedField($name)`: the first parsed field with that name. */
    method GetSortedField(name: string) returns (r: Option<SortField>)
      modifies this
      ensures sorts == old(sorts) && ParsedOnce()
      ensures var i := SortFieldIndex(Parsed(), name);
        (r.None? <==> i.None?) && (i.Some? ==> r == Some(sortFields.value[i.value]))
    {
      var fields := GetSortedFields();
      r := FindSortField(fields, name);
    }

    /** `hasSortedField($name)` */
    method HasSortedField(name: string) returns (b: bool)
      modifies this
      ensures sorts == old(sorts) && ParsedOnce()
      ensures b <==> exists i :: 0 <= i < |Parsed()| && Parsed()[i].name == name
    {
      var r := GetSortedField(name);
      b := r.Some?;
    }

    /** The check loop of `handleAllowedSorts`, over given fields. */
    method CheckSortFields(fields: seq<SortField>) returns (outcome: Outcome<Failure>)
      ensures outcome == ValidateSorts(sorts, SortInputs(fields))
    {
      ghost var inputs := SortInputs(fields);
      var i := 0;
      while i < |fields|
        invariant 0 <= i <= |fields|
        invariant forall j :: 0 <= j < i ==> IsAllowedSort(sorts, inputs[j])
      {
        SortInputsAt(fields, i);
        var ok := IsAllowedSortField(fields[i]);
        if !ok {
          ValidateSortsFailsAt(sorts, inputs, i);
          return Fail(SortException(SortMessage(fields[i].AsInput(), sorts)));
        }
        i := i + 1;
      }
      ValidateSortsPasses(sorts, inputs);
      return Pass;
    }

    /** `handleAllowedSorts($sorts)`: stores the definitions, then fails at the first disallowed field. */
    method HandleAllowedSorts(defs: seq<Sort>) returns (outcome: Outcome<Failure>)
      modifies this
      ensures sorts == defs && ParsedOnce()
      ensures outcome == ValidateSorts(defs, Parsed())
    {
      sorts := defs;
      var fields := GetSortedFields();
      outcome := CheckSortFields(fields);
    }

    /** `applySortedFieldsToQueryBuilder($qb)` of the current trait. */
    method ApplySortedFieldsToQueryBuilder(qb: QueryBuilder, ormInstalled: bool) returns (failure: Option<Failure>)
      modifies this, qb
      ensures !ormInstalled ==>
        (failure == Some(MissingDependencyException(MissingOrmMessage)) && unchanged(this) && unchanged(qb))
      ensures ormInstalled ==> (failure.None? && sorts == old(sorts) && ParsedOnce() &&
        qb.State() == ApplySorts(old(qb.State()), Parsed()))
    {
      if !ormInstalled {
        return Some(MissingDependencyException(MissingOrmMessage));
      }
      var fields := GetSortedFields();
      ApplySortFields(qb, fields);
      failure := None;
    }

    /** `applySortedFieldsToQueryBuilder($qb)` of the Rfc14 trait, which has no ORM check. */
    method ApplySortedFields(qb: QueryBuilder)
      modifies this, qb
      ensures sorts == old(sorts) && ParsedOnce()
      ensures qb.State() == ApplySorts(old(qb.State()), Parsed())
    {
      var fields := GetSortedFields();
      ApplySortFields(qb, fields);
    }
  }
}
