/**
 * The older user-supplied fields: the Rfc14 `Input\FilterField` (whose
 * `getValue` calls itself for list comparisons, binds the parameter for
 * every comparison and knows no null literal, no `like` and no
 * `autoApply`) and the older `Input\SortField` (which reads `autoApply`
 * of a possibly missing definition).
 */
module LegacyInput {
  import opened Wrappers
  import opened Text
  import opened Annotation
  import opened Doctrine
  import opened Exceptions
  import opened Input

  /**
   * The Rfc14 `getValue()` when `stack` more nested calls fit on the call
   * stack: `None` once the stack is exhausted. For `in`/`nin` it calls
   * itself on the same object before splitting, so it never returns,
   * whatever the stack depth; for every other comparison it returns the
   * raw value.
   */
  function GetValueWithin(f: FilterInput, stack: nat): (r: Option<Value>)
    decreases stack
    ensures IsListComparison(f.comparison) ==> r.None?
    ensures !IsListComparison(f.comparison) ==> r == Some(Scalar(f.value))
  {
    if !IsListComparison(f.comparison) then Some(Scalar(f.value))
    else if stack == 0 then None
    else match GetValueWithin(f, stack - 1)
      case Some(Scalar(t)) => Some(List(Explode(',', t)))
      case _ => None
  }

  /** The comparisons the Rfc14 switch knows: the nine without `like`. */
  function LegacyOp(c: string): Option<CmpOp>
  {
    if c == ComparisonEquals then Some(Eq)
    else if c == ComparisonNotEquals then Some(Neq)
    else if c == ComparisonIn then Some(In)
    else if c == ComparisonNotIn then Some(NotIn)
    else if c == ComparisonGreaterThan then Some(Gt)
    else if c == ComparisonGreaterThanEquals then Some(Gte)
    else if c == ComparisonLessThan then Some(Lt)
    else if c == ComparisonLessThanEquals then Some(Lte)
    else None
  }

  /** The predicate the Rfc14 switch appends, if any. */
  function LegacyWhere(st: QueryState, f: FilterInput, p: string): QueryState
  {
    match LegacyOp(f.comparison)
    case Some(op) => Where(st, Cmp(op, FilterTarget(f, st.rootAlias), p))
    case None => st
  }

  /**
   * The Rfc14 `applyToQueryBuilder`: the predicate, then
   * `setParameter($parameter, getValue())` for every comparison, which
   * never returns for `in`/`nin`.
   */
  function ApplyRfc14Filter(st: QueryState, f: FilterInput, p: string): Result<QueryState, Failure>
  {
    if IsListComparison(f.comparison) then Err(StackOverflow)
    else Ok(Bind(LegacyWhere(st, f, p), p, Scalar(f.value)))
  }

  /** The apply fails exactly when `getValue` cannot return at any stack depth, and binds what it returns otherwise. */
  lemma ApplyFailsWhereGetValueOverflows(st: QueryState, f: FilterInput, p: string, stack: nat)
    ensures ApplyRfc14Filter(st, f, p).Err? <==> GetValueWithin(f, stack).None?
    ensures ApplyRfc14Filter(st, f, p).Ok? ==>
      ApplyRfc14Filter(st, f, p).value == Bind(LegacyWhere(st, f, p), p, GetValueWithin(f, stack).value)
  {
  }

  /** `in` and `nin` add their predicate and then never reach the parameter binding. */
  lemma ListComparisonsOverflow(st: QueryState, f: FilterInput, p: string)
    requires IsListComparison(f.comparison)
    ensures ApplyRfc14Filter(st, f, p) == Err(StackOverflow)
    ensures LegacyWhere(st, f, p).wheres ==
      st.wheres + [Cmp(if f.comparison == ComparisonIn then In else NotIn, FilterTarget(f, st.rootAlias), p)]
  {
  }

  /** There is no `autoApply` guard and no `\null` literal: `eq \null` compares against the text `\null`. */
  lemma Rfc14IgnoresAutoApplyAndNull(st: QueryState, f: FilterInput, p: string)
    requires f.comparison == ComparisonEquals
    ensures ApplyRfc14Filter(st, f, p) ==
      Ok(st.(wheres := st.wheres + [Cmp(Eq, FilterTarget(f, st.rootAlias), p)], params := st.params[p := Scalar(f.value)]))
  {
  }

  /** `like` and unknown comparisons add no predicate but still bind the parameter. */
  lemma Rfc14UnknownBindsOnly(st: QueryState, f: FilterInput, p: string)
    requires LegacyOp(f.comparison).None?
    ensures ApplyRfc14Filter(st, f, p) == Ok(st.(params := st.params[p := Scalar(f.value)]))
  {
  }

  /** `like` is a predicate in the current field but only a stray parameter here. */
  lemma LikeDiffersFromCurrentField(st: QueryState, f: FilterInput, p: string)
    requires f.comparison == ComparisonLike && FilterApplies(f)
    ensures ApplyFilter(st, f, p).wheres == st.wheres + [Cmp(Like, FilterTarget(f, st.rootAlias), p)]
    ensures ApplyRfc14Filter(st, f, p).Ok? && ApplyRfc14Filter(st, f, p).value.wheres == st.wheres
  {
  }

  /** The older `SortField::applyToQueryBuilder`: with no definition, `!null->autoApply` is true and it returns. */
  function ApplyLegacySort(st: QueryState, s: SortInput): QueryState
  {
    if s.sort.None? then st else ApplySort(st, s)
  }

  /** A requested sort without a definition is dropped by the older field. */
  lemma LegacySortWithoutDefinitionIsDropped(st: QueryState, s: SortInput)
    requires s.sort.None?
    ensures ApplyLegacySort(st, s) == st
  {
  }

  /** The current field, which guards the null definition, applies it instead. */
  lemma CurrentSortAppliesUndeclared(st: QueryState, name: string)
    ensures ApplyLegacySort(st, SortInput(name, Ascending, None)) == st
    ensures ApplySort(st, SortInput(name, Ascending, None)).orderBys == st.orderBys + [(st.rootAlias + "." + name, ASC)]
  {
  }

  /** With a definition both revisions of the sort field agree. */
  lemma LegacySortAgreesWithDefinition(st: QueryState, s: SortInput)
    requires s.sort.Some?
    ensures ApplyLegacySort(st, s) == ApplySort(st, s)
  {
  }

  /** A filter requested by the client, Rfc14 revision. */
  class Rfc14FilterField {
    var name: string
    var value: string
    var comparison: string
    var filter: Option<Filter>

    function AsInput(): FilterInput
      reads this
    {
      FilterInput(name, value, comparison, filter)
    }

    constructor ()
      ensures AsInput() == FilterInput("", "", "", None)
    {
      name, value, comparison, filter := "", "", "", None;
    }

    method SetName(n: string) returns (self: Rfc14FilterField)
      modifies this
      ensures self == this && AsInput() == old(AsInput()).(name := n)
    {
      name := n;
      self := this;
    }

    method SetValue(v: string) returns (self: Rfc14FilterField)
      modifies this
      ensures self == this && AsInput() == old(AsInput()).(value := v)
    {
      value := v;
      self := this;
    }

    method SetComparison(c: string) returns (self: Rfc14FilterField)
      modifies this
      ensures self == this && AsInput() == old(AsInput()).(comparison := c)
    {
      comparison := c;
      self := this;
    }

    method SetFilter(f: Option<Filter>) returns (self: Rfc14FilterField)
      modifies this
      ensures self == this && AsInput() == old(AsInput()).(filter := f)
    {
      filter := f;
      self := this;
    }

    /**
     * `applyToQueryBuilder($qb)`; `placeholder` is the generated parameter
     * name, and `failure` the fatal error `getValue` ends in.
     */
    method ApplyToQueryBuilder(qb: QueryBuilder) returns (failure: Option<Failure>, ghost placeholder: string)
      modifies qb
      ensures placeholder !in old(qb.params) && PlaceholderPrefix(name) <= placeholder
      ensures var r := ApplyRfc14Filter(old(qb.State()), AsInput(), placeholder);
        (r.Ok? ==> failure.None? && qb.State() == r.value) &&
        (r.Err? ==> failure == Some(r.error) && qb.State() == LegacyWhere(old(qb.State()), AsInput(), placeholder))
    {
      var parameter := FreshExtension(PlaceholderPrefix(name), qb.params.Keys);
      placeholder := parameter;
      var op := LegacyOp(comparison);
      if op.Some? {
        qb.AndWhere(Cmp(op.value, FilterTarget(AsInput(), qb.rootAlias), parameter));
      }
      if IsListComparison(comparison) {
        return Some(StackOverflow), placeholder;
      }
      qb.SetParameter(parameter, Scalar(value));
      failure := None;
    }
  }

  /** The state of a sequence of Rfc14 FilterField objects. */
  function Rfc14FilterInputs(fs: seq<Rfc14FilterField>): (r: seq<FilterInput>)
    reads fs
    ensures |r| == |fs|
  {
    if |fs| == 0 then [] else Rfc14FilterInputs(fs[..|fs| - 1]) + [fs[|fs| - 1].AsInput()]
  }

  lemma Rfc14FilterInputsAppend(fs: seq<Rfc14FilterField>, f: Rfc14FilterField)
    ensures Rfc14FilterInputs(fs + [f]) == Rfc14FilterInputs(fs) + [f.AsInput()]
  {
    assert (fs + [f])[..|fs|] == fs;
  }

  lemma {:induction false} Rfc14FilterInputsConcat(fs: seq<Rfc14FilterField>, gs: seq<Rfc14FilterField>)
    ensures Rfc14FilterInputs(fs + gs) == Rfc14FilterInputs(fs) + Rfc14FilterInputs(gs)
  {
    if |gs| > 0 {
      var n := |gs| - 1;
      assert (fs + gs)[..|fs + gs| - 1] == fs + gs[..n];
      Rfc14FilterInputsConcat(fs, gs[..n]);
    } else {
      assert fs + gs == fs;
    }
  }

  /** Each parsed filter value is the state of the object at the same position. */
  lemma {:induction false} Rfc14FilterInputsAt(fs: seq<Rfc14FilterField>, i: int)
    requires 0 <= i < |fs|
    ensures Rfc14FilterInputs(fs)[i] == fs[i].AsInput()
  {
    if i < |fs| - 1 {
      Rfc14FilterInputsAt(fs[..|fs| - 1], i);
    }
  }

  /** A sort requested by the client, older revision. */
  class LegacySortField {
    var name: string
    var direction: string
    var sort: Option<Sort>

    function AsInput(): SortInput
      reads this
    {
      SortInput(name, direction, sort)
    }

    constructor ()
      ensures AsInput() == SortInput("", "", None)
    {
      name, direction, sort := "", "", None;
    }

    method SetName(n: string) returns (self: LegacySortField)
      modifies this
      ensures self == this && AsInput() == old(AsInput()).(name := n)
    {
      name := n;
      self := this;
    }

    method SetDirection(d: string) returns (self: LegacySortField)
      modifies this
      ensures self == this && AsInput() == old(AsInput()).(direction := d)
    {
      direction := d;
      self := this;
    }

    method SetSort(s: Option<Sort>) returns (self: LegacySortField)
      modifies this
      ensures self == this && AsInput() == old(AsInput()).(sort := s)
    {
      sort := s;
      self := this;
    }

    /** `applyToQueryBuilder($qb)` */
    method ApplyToQueryBuilder(qb: QueryBuilder)
      modifies qb
      ensures qb.State() == ApplyLegacySort(old(qb.State()), AsInput())
    {
      if sort.None? || !sort.value.autoApply {
        return;
      }
      if direction == Ascending {
        qb.AddOrderBy(SortTarget(AsInput(), qb.rootAlias), ASC);
      } else if direction == Descending {
        qb.AddOrderBy(SortTarget(AsInput(), qb.rootAlias), DESC);
      }
    }
  }
}
