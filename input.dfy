/**
 * The user-supplied fields of the current bundle (`Input\FilterField`,
 * `Input\SortField`): their pure parts (value decoding, target field,
 * `matches`) as functions on a value snapshot, the query-builder effect of
 * `applyToQueryBuilder` as a function on the builder state, and the mutable
 * objects themselves as classes whose methods are proved against those
 * functions.
 */
module Input {
  import opened Wrappers
  import opened Text
  import opened Annotation
  import opened Doctrine
  import opened Exceptions

  /** PHP truthiness of a string: '' and '0' are false. */
  predicate Truthy(s: string) { s != "" && s != "0" }

  predicate TruthyName(n: Option<string>) { n.Some? && Truthy(n.value) }

  /** The comparisons whose value is a comma-separated list. */
  predicate IsListComparison(c: string) { c == ComparisonIn || c == ComparisonNotIn }

  /** The literal `\null` (five characters) after `strtolower`. */
  predicate IsNullLiteral(v: string) { ToLower(v) == "\\null" }

  /** What a FilterField object holds: name, raw value, comparison and its definition. */
  datatype FilterInput = FilterInput(name: string, value: string, comparison: string, filter: Option<Filter>)

  /** What a SortField object holds: name, direction and its definition. */
  datatype SortInput = SortInput(name: string, direction: string, sort: Option<Sort>)

  /**
   * `getValue()`: for `in`/`nin` the raw string split on every ',', which
   * is never empty and joins back to the raw string; otherwise the raw value.
   */
  function GetValue(f: FilterInput): (v: Value)
    ensures IsListComparison(f.comparison) ==>
      v.List? && |v.items| >= 1 && Implode(",", v.items) == f.value &&
      forall i :: 0 <= i < |v.items| ==> ',' !in v.items[i]
    ensures !IsListComparison(f.comparison) ==> v == Scalar(f.value)
  {
    if IsListComparison(f.comparison) then
      ImplodeExplode(',', f.value);
      List(Explode(',', f.value))
    else Scalar(f.value)
  }

  /**
   * The text of a value as the FilterException message prints it: lists are
   * imploded with ','. For every field it is the raw value.
   */
  function DisplayValue(f: FilterInput): (s: string)
    ensures s == f.value
  {
    match GetValue(f)
    case List(items) => Implode(",", items)
    case Scalar(t) => t
  }

  /**
   * `getQueryBuilderName()` of both field kinds: the definition's truthy
   * `queryBuilderName` if a definition is attached, else `rootAlias.name`.
   * Either way the result is a truthy string.
   */
  function TargetField(queryBuilderName: Option<Option<string>>, name: string, rootAlias: string): (r: string)
    ensures queryBuilderName.Some? && TruthyName(queryBuilderName.value) ==> r == queryBuilderName.value.value
    ensures !(queryBuilderName.Some? && TruthyName(queryBuilderName.value)) ==> r == rootAlias + "." + name
    ensures Truthy(r)
  {
    if queryBuilderName.Some? && TruthyName(queryBuilderName.value) then queryBuilderName.value.value
    else
      var r := rootAlias + "." + name;
      assert r[|rootAlias|] == '.';
      r
  }

  function FilterTarget(f: FilterInput, rootAlias: string): string
  {
    TargetField(if f.filter.Some? then Some(f.filter.value.queryBuilderName) else None, f.name, rootAlias)
  }

  function SortTarget(s: SortInput, rootAlias: string): string
  {
    TargetField(if s.sort.Some? then Some(s.sort.value.queryBuilderName) else None, s.name, rootAlias)
  }

  /** The prefix of every placeholder a filter named `name` binds. */
  function PlaceholderPrefix(name: string): string
  {
    "filter_" + name + "_"
  }

  /** The comparisons that compile to one plain bound predicate. */
  function PlainOp(c: string): Option<CmpOp>
  {
    if c == ComparisonEquals then Some(Eq)
    else if c == ComparisonIn then Some(In)
    else if c == ComparisonGreaterThan then Some(Gt)
    else if c == ComparisonGreaterThanEquals then Some(Gte)
    else if c == ComparisonLessThan then Some(Lt)
    else if c == ComparisonLessThanEquals then Some(Lte)
    else if c == ComparisonLike then Some(Like)
    else None
  }

  predicate IsKnownComparison(c: string) { c in AllComparisons }

  function Where(st: QueryState, e: Expr): QueryState
  {
    st.(wheres := st.wheres + [e])
  }

  function Bind(st: QueryState, p: string, v: Value): QueryState
  {
    st.(params := st.params[p := v])
  }

  /** Does `applyToQueryBuilder` get past its `autoApply` guard? */
  predicate FilterApplies(f: FilterInput)
  {
    !(f.filter.Some? && !f.filter.value.autoApply)
  }

  /**
   * The effect of `FilterField::applyToQueryBuilder` on a builder state,
   * `p` being the unique placeholder it generated.
   */
  function ApplyFilter(st: QueryState, f: FilterInput, p: string): QueryState
  {
    if !FilterApplies(f) then st
    else
      var field := FilterTarget(f, st.rootAlias);
      var c := f.comparison;
      if c == ComparisonEquals && IsNullLiteral(f.value) then Where(st, IsNull(field))
      else if c == ComparisonNotEquals && IsNullLiteral(f.value) then Where(st, IsNotNull(field))
      else if c == ComparisonNotEquals then Bind(Where(st, Or(Cmp(Neq, field, p), IsNull(field))), p, GetValue(f))
      else if c == ComparisonNotIn then Bind(Where(st, Or(Cmp(NotIn, field, p), IsNull(field))), p, GetValue(f))
      else match PlainOp(c)
        case Some(op) => Bind(Where(st, Cmp(op, field, p)), p, GetValue(f))
        case None => st
  }

  /** A definition with `autoApply = false` leaves the builder as it is. */
  lemma ManualFilterIsNotApplied(st: QueryState, f: FilterInput, p: string)
    requires f.filter.Some? && !f.filter.value.autoApply
    ensures ApplyFilter(st, f, p) == st
  {
  }

  /** A field without any definition is still applied. */
  lemma UndeclaredFilterIsApplied(st: QueryState, f: FilterInput, p: string)
    requires f.filter.None? && IsKnownComparison(f.comparison)
    ensures |ApplyFilter(st, f, p).wheres| == |st.wheres| + 1
  {
  }

  /** `eq`/`neq` with the `\null` literal: one IS [NOT] NULL predicate and no parameter. */
  lemma NullLiteralFilter(st: QueryState, f: FilterInput, p: string)
    requires FilterApplies(f) && IsNullLiteral(f.value)
    requires f.comparison == ComparisonEquals || f.comparison == ComparisonNotEquals
    ensures var field := FilterTarget(f, st.rootAlias);
      ApplyFilter(st, f, p) ==
        st.(wheres := st.wheres + [if f.comparison == ComparisonEquals then IsNull(field) else IsNotNull(field)])
  {
  }

  /** `\NULL` in any letter case is the null literal; `null` without backslash is not. */
  lemma NullLiteralExamples()
    ensures IsNullLiteral("\\null") && IsNullLiteral("\\NULL") && IsNullLiteral("\\Null")
    ensures !IsNullLiteral("null") && !IsNullLiteral("\\nul")
  {
    assert ToLower("\\NULL") == "\\null";
    assert ToLower("\\Null") == "\\null";
    assert |ToLower("null")| == 4;
  }

  /** Non-literal `neq`, and `nin`, also match rows whose field is NULL. */
  lemma NullInclusiveFilter(st: QueryState, f: FilterInput, p: string)
    requires FilterApplies(f)
    requires (f.comparison == ComparisonNotEquals && !IsNullLiteral(f.value)) || f.comparison == ComparisonNotIn
    ensures var field := FilterTarget(f, st.rootAlias);
      var op := if f.comparison == ComparisonNotIn then NotIn else Neq;
      ApplyFilter(st, f, p) ==
        st.(wheres := st.wheres + [Or(Cmp(op, field, p), IsNull(field))], params := st.params[p := GetValue(f)])
  {
  }

  /**
   * Every comparison but the null literal binds exactly one new parameter
   * beside its one predicate, keeps every earlier binding and changes
   * nothing else.
   */
  lemma BoundFilterAddsOneParameter(st: QueryState, f: FilterInput, p: string)
    requires FilterApplies(f) && IsKnownComparison(f.comparison)
    requires !((f.comparison == ComparisonEquals || f.comparison == ComparisonNotEquals) && IsNullLiteral(f.value))
    requires p !in st.params
    ensures var r := ApplyFilter(st, f, p);
      |r.wheres| == |st.wheres| + 1 && r.wheres[..|st.wheres|] == st.wheres &&
      r.params.Keys == st.params.Keys + {p} && |r.params| == |st.params| + 1 && r.params[p] == GetValue(f)
    ensures var r := ApplyFilter(st, f, p);
      (forall k :: k in st.params ==> r.params[k] == st.params[k]) && r.(wheres := st.wheres, params := st.params) == st
  {
    var r := ApplyFilter(st, f, p);
    FilterTouchesOnlyWheresAndParams(st, f, p);
    assert r.params == st.params[p := GetValue(f)] && r.wheres == st.wheres + [r.wheres[|st.wheres|]];
    BindingFreshKey(st.params, p, GetValue(f));
  }

  lemma BindingFreshKey(params: map<string, Value>, p: string, v: Value)
    requires p !in params
    ensures params[p := v].Keys == params.Keys + {p} && |params[p := v]| == |params| + 1
  {
  }

  /** A comparison outside the nine changes nothing: the switch has no default branch. */
  lemma UnknownComparisonIsIgnored(st: QueryState, f: FilterInput, p: string)
    requires !IsKnownComparison(f.comparison)
    ensures ApplyFilter(st, f, p) == st
  {
  }

  /** A filter only ever appends a predicate and binds a parameter; nothing else in the builder changes. */
  lemma FilterTouchesOnlyWheresAndParams(st: QueryState, f: FilterInput, p: string)
    ensures var r := ApplyFilter(st, f, p);
      r.(wheres := st.wheres, params := st.params) == st &&
      st.wheres <= r.wheres && |r.wheres| <= |st.wheres| + 1 &&
      (r.params != st.params ==> r.params == st.params[p := GetValue(f)])
  {
  }

  /** `in_array` with PHP's loose `==`, which agrees with `<=>` returning 0. */
  predicate LooseIn(x: string, items: seq<string>, compare: (string, string) -> int)
  {
    exists i :: 0 <= i < |items| && compare(x, items[i]) == 0
  }

  /**
   * `matches($value)` with `compare` standing for PHP's `<=>` on the
   * values: strict (in)equality, loose (non-)membership in the list, the four
   * ordered comparisons; anything else (including `like`) throws.
   */
  function Matches(f: FilterInput, candidate: string, compare: (string, string) -> int): (r: Result<bool, Failure>)
    ensures r.Err? <==> f.comparison !in [ComparisonEquals, ComparisonNotEquals, ComparisonIn, ComparisonNotIn,
      ComparisonGreaterThan, ComparisonGreaterThanEquals, ComparisonLessThan, ComparisonLessThanEquals]
    ensures r.Err? ==> r.error == FilterException("Unknown comparison")
    ensures f.comparison == ComparisonEquals ==> r == Ok(candidate == f.value)
    ensures f.comparison == ComparisonNotEquals ==> r == Ok(candidate != f.value)
    ensures f.comparison == ComparisonIn ==>
      r == Ok(LooseIn(candidate, Explode(',', f.value), compare))
    ensures f.comparison == ComparisonNotIn ==>
      r == Ok(!LooseIn(candidate, Explode(',', f.value), compare))
    ensures f.comparison == ComparisonGreaterThanEquals ==>
      r == Ok(compare(candidate, f.value) > 0 || compare(candidate, f.value) == 0)
    ensures f.comparison == ComparisonGreaterThan ==> r == Ok(compare(candidate, f.value) > 0)
    ensures f.comparison == ComparisonLessThan ==> r == Ok(compare(candidate, f.value) < 0)
    ensures f.comparison == ComparisonLessThanEquals ==>
      r == Ok(compare(candidate, f.value) < 0 || compare(candidate, f.value) == 0)
  {
    var c := f.comparison;
    var v := GetValue(f);
    if c == ComparisonEquals then Ok(candidate == v.text)
    else if c == ComparisonNotEquals then Ok(candidate != v.text)
    else if c == ComparisonIn then Ok(LooseIn(candidate, v.items, compare))
    else if c == ComparisonNotIn then Ok(!LooseIn(candidate, v.items, compare))
    else if c == ComparisonGreaterThan then Ok(compare(candidate, v.text) > 0)
    else if c == ComparisonGreaterThanEquals then Ok(compare(candidate, v.text) >= 0)
    else if c == ComparisonLessThan then Ok(compare(candidate, v.text) < 0)
    else if c == ComparisonLessThanEquals then Ok(compare(candidate, v.text) <= 0)
    else Err(FilterException("Unknown comparison"))
  }

  /** `like` is accepted by the definitions but `matches` cannot evaluate it. */
  lemma LikeDoesNotMatch(f: FilterInput, candidate: string, compare: (string, string) -> int)
    requires f.comparison == ComparisonLike
    ensures Matches(f, candidate, compare).Err?
  {
  }

  /** `nin` is exactly the negation of `in` on the same raw value. */
  lemma NotInNegatesIn(name: string, value: string, filter: Option<Filter>, candidate: string, compare: (string, string) -> int)
    ensures var i := Matches(FilterInput(name, value, ComparisonIn, filter), candidate, compare);
      var n := Matches(FilterInput(name, value, ComparisonNotIn, filter), candidate, compare);
      i.Ok? && n.Ok? && n.value == !i.value
  {
  }

  /** Does `SortField::applyToQueryBuilder` get past its `autoApply` guard? */
  predicate SortApplies(s: SortInput)
  {
    !(s.sort.Some? && !s.sort.value.autoApply)
  }

  /** The effect of `SortField::applyToQueryBuilder` on a builder state. */
  function ApplySort(st: QueryState, s: SortInput): QueryState
  {
    if !SortApplies(s) then st
    else if s.direction == Ascending then st.(orderBys := st.orderBys + [(SortTarget(s, st.rootAlias), ASC)])
    else if s.direction == Descending then st.(orderBys := st.orderBys + [(SortTarget(s, st.rootAlias), DESC)])
    else st
  }

  /** `asc`/`desc` append exactly one ORDER BY clause and change nothing else. */
  lemma SortAppendsOneOrderBy(st: QueryState, s: SortInput)
    requires SortApplies(s) && (s.direction == Ascending || s.direction == Descending)
    ensures ApplySort(st, s) ==
      st.(orderBys := st.orderBys + [(SortTarget(s, st.rootAlias), if s.direction == Ascending then ASC else DESC)])
  {
  }

  /** Any other direction, and a definition with `autoApply = false`, leave the builder unchanged. */
  lemma SortNoOp(st: QueryState, s: SortInput)
    requires !SortApplies(s) || (s.direction != Ascending && s.direction != Descending)
    ensures ApplySort(st, s) == st
  {
  }

  /** A sort field without a definition is still applied. */
  lemma UndeclaredSortIsApplied(st: QueryState, s: SortInput)
    requires s.sort.None? && s.direction == Ascending
    ensures ApplySort(st, s).orderBys == st.orderBys + [(st.rootAlias + "." + s.name, ASC)]
  {
  }

  /** The state of a sequence of FilterField objects. */
  function FilterInputs(fs: seq<FilterField>): (r: seq<FilterInput>)
    reads fs
    ensures |r| == |fs|
  {
    if |fs| == 0 then [] else FilterInputs(fs[..|fs| - 1]) + [fs[|fs| - 1].AsInput()]
  }

  lemma FilterInputsAppend(fs: seq<FilterField>, f: FilterField)
    ensures FilterInputs(fs + [f]) == FilterInputs(fs) + [f.AsInput()]
  {
    assert (fs + [f])[..|fs|] == fs;
  }

  lemma {:induction false} FilterInputsConcat(fs: seq<FilterField>, gs: seq<FilterField>)
    ensures FilterInputs(fs + gs) == FilterInputs(fs) + FilterInputs(gs)
  {
    if |gs| > 0 {
      var n := |gs| - 1;
      assert (fs + gs)[..|fs + gs| - 1] == fs + gs[..n];
      FilterInputsConcat(fs, gs[..n]);
    } else {
      assert fs + gs == fs;
    }
  }

  /** Each parsed filter value is the state of the object at the same position. */
  lemma {:induction false} FilterInputsAt(fs: seq<FilterField>, i: int)
    requires 0 <= i < |fs|
    ensures FilterInputs(fs)[i] == fs[i].AsInput()
  {
    if i < |fs| - 1 {
      FilterInputsAt(fs[..|fs| - 1], i);
    }
  }

  /** The state of a sequence of SortField objects. */
  function SortInputs(ss: seq<SortField>): (r: seq<SortInput>)
    reads ss
    ensures |r| == |ss|
  {
    if |ss| == 0 then [] else SortInputs(ss[..|ss| - 1]) + [ss[|ss| - 1].AsInput()]
  }

  lemma SortInputsAppend(ss: seq<SortField>, s: SortField)
    ensures SortInputs(ss + [s]) == SortInputs(ss) + [s.AsInput()]
  {
    assert (ss + [s])[..|ss|] == ss;
  }

  /** Each parsed sort value is the state of the object at the same position. */
  lemma {:induction false} SortInputsAt(ss: seq<SortField>, i: int)
    requires 0 <= i < |ss|
    ensures SortInputs(ss)[i] == ss[i].AsInput()
  {
    if i < |ss| - 1 {
      SortInputsAt(ss[..|ss| - 1], i);
    }
  }

  /** A filter requested by the client (`Input\FilterField`). */
  class FilterField {
    var name: string
    var value: string
    var comparison: string
    var filter: Option<Filter>

    function AsInput(): FilterInput
      reads this
    {
      FilterInput(name, value, comparison, filter)
    }

    /** `new FilterField()`: empty name, comparison and value, no definition. */
    constructor ()
      ensures AsInput() == FilterInput("", "", "", None)
    {
      name, value, comparison, filter := "", "", "", None;
    }

    method SetName(n: string) returns (self: FilterField)
      modifies this
      ensures self == this && AsInput() == old(AsInput()).(name := n)
    {
      name := n;
      self := this;
    }

    method SetValue(v: string) returns (self: FilterField)
      modifies this
      ensures self == this && AsInput() == old(AsInput()).(value := v)
    {
      value := v;
      self := this;
    }

    method SetComparison(c: string) returns (self: FilterField)
      modifies this
      ensures self == this && AsInput() == old(AsInput()).(comparison := c)
    {
      comparison := c;
      self := this;
    }

    method SetFilter(f: Option<Filter>) returns (self: FilterField)
      modifies this
      ensures self == this && AsInput() == old(AsInput()).(filter := f)
    {
      filter := f;
      self := this;
    }

    /** `getUniquePlaceholder()`: `filter_<name>_` and a suffix no bound parameter uses. */
    method GetUniquePlaceholder(taken: set<string>) returns (p: string)
      ensures PlaceholderPrefix(name) <= p && p !in taken
    {
      p := FreshExtension(PlaceholderPrefix(name), taken);
    }

    /** `applyToQueryBuilder($qb)`; `placeholder` is the unique parameter name it generated. */
    method ApplyToQueryBuilder(qb: QueryBuilder) returns (ghost placeholder: string)
      modifies qb
      ensures FilterApplies(AsInput()) ==>
        placeholder !in old(qb.params) && PlaceholderPrefix(name) <= placeholder
      ensures qb.State() == ApplyFilter(old(qb.State()), AsInput(), placeholder)
    {
      placeholder := "";
      if filter.Some? && !filter.value.autoApply {
        return;
      }
      var parameter := GetUniquePlaceholder(qb.params.Keys);
      placeholder := parameter;
      var field := FilterTarget(AsInput(), qb.rootAlias);
      var c := comparison;
      if c == ComparisonEquals {
        if IsNullLiteral(value) {
          qb.AndWhere(IsNull(field));
        } else {
          qb.AndWhere(Cmp(Eq, field, parameter));
          qb.SetParameter(parameter, GetValue(AsInput()));
        }
      } else if c == ComparisonNotEquals {
        if IsNullLiteral(value) {
          qb.AndWhere(IsNotNull(field));
        } else {
          qb.AndWhere(Or(Cmp(Neq, field, parameter), IsNull(field)));
          qb.SetParameter(parameter, GetValue(AsInput()));
        }
      } else if c == ComparisonIn {
        qb.AndWhere(Cmp(In, field, parameter));
        qb.SetParameter(parameter, GetValue(AsInput()));
      } else if c == ComparisonNotIn {
        qb.AndWhere(Or(Cmp(NotIn, field, parameter), IsNull(field)));
        qb.SetParameter(parameter, GetValue(AsInput()));
      } else if c == ComparisonGreaterThan {
        qb.AndWhere(Cmp(Gt, field, parameter));
        qb.SetParameter(parameter, GetValue(AsInput()));
      } else if c == ComparisonGreaterThanEquals {
        qb.AndWhere(Cmp(Gte, field, parameter));
        qb.SetParameter(parameter, GetValue(AsInput()));
      } else if c == ComparisonLessThan {
        qb.AndWhere(Cmp(Lt, field, parameter));
        qb.SetParameter(parameter, GetValue(AsInput()));
      } else if c == ComparisonLessThanEquals {
        qb.AndWhere(Cmp(Lte, field, parameter));
        qb.SetParameter(parameter, GetValue(AsInput()));
      } else if c == ComparisonLike {
        qb.AndWhere(Cmp(Like, field, parameter));
        qb.SetParameter(parameter, GetValue(AsInput()));
      }
    }
  }

  /** A sort requested by the client (`Input\SortField`). */
  class SortField {
    var name: string
    var direction: string
    var sort: Option<Sort>

    function AsInput(): SortInput
      reads this
    {
      SortInput(name, direction, sort)
    }

    constructor ()
      ensures AsInput() == SortInput("", "", None)
    {
      name, direction, sort := "", "", None;
    }

    method SetName(n: string) returns (self: SortField)
      modifies this
      ensures self == this && AsInput() == old(AsInput()).(name := n)
    {
      name := n;
      self := this;
    }

    method SetDirection(d: string) returns (self: SortField)
      modifies this
      ensures self == this && AsInput() == old(AsInput()).(direction := d)
    {
      direction := d;
      self := this;
    }

    method SetSort(s: Option<Sort>) returns (self: SortField)
      modifies this
      ensures self == this && AsInput() == old(AsInput()).(sort := s)
    {
      sort := s;
      self := this;
    }

    /** `applyToQueryBuilder($qb)` */
    method ApplyToQueryBuilder(qb: QueryBuilder)
      modifies qb
      ensures qb.State() == ApplySort(old(qb.State()), AsInput())
    {
      if sort.Some? && !sort.value.autoApply {
        return;
      }
      if direction == Ascending {
        qb.AddOrderBy(SortTarget(AsInput(), qb.rootAlias), ASC);
      } else if direction == Descending {
        qb.AddOrderBy(SortTarget(AsInput(), qb.rootAlias), DESC);
      }
    }
  }
}
