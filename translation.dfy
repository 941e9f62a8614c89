/**
 * What applying a whole list of fields does to the query builder, fold by
 * fold, for every revision of the fields; the services' apply loops are
 * proved against these folds.
 */
module Translation {
  import opened Wrappers
  import Annotation
  import opened Doctrine
  import opened Exceptions
  import opened Input
  import opened LegacyInput

  /** The filters applied in order, `ps[i]` the placeholder generated for `fs[i]`. */
  function ApplyFilters(st: QueryState, fs: seq<FilterInput>, ps: seq<string>): QueryState
    requires |fs| == |ps|
  {
    if |fs| == 0 then st
    else ApplyFilter(ApplyFilters(st, fs[..|fs| - 1], ps[..|ps| - 1]), fs[|fs| - 1], ps[|ps| - 1])
  }

  /** Each placeholder was fresh in the builder it was generated for. */
  predicate FreshPlaceholders(st: QueryState, fs: seq<FilterInput>, ps: seq<string>)
    requires |fs| == |ps|
  {
    |fs| == 0 ||
    (FreshPlaceholders(st, fs[..|fs| - 1], ps[..|ps| - 1]) &&
     (FilterApplies(fs[|fs| - 1]) ==> ps[|ps| - 1] !in ApplyFilters(st, fs[..|fs| - 1], ps[..|ps| - 1]).params))
  }

  /** Filters only append predicates and bind parameters: everything else, and every earlier predicate, stays. */
  lemma {:induction false} FiltersTouchOnlyWheresAndParams(st: QueryState, fs: seq<FilterInput>, ps: seq<string>)
    requires |fs| == |ps|
    ensures var r := ApplyFilters(st, fs, ps);
      r.(wheres := st.wheres, params := st.params) == st && st.wheres <= r.wheres && |r.wheres| <= |st.wheres| + |fs|
  {
    if |fs| > 0 {
      var n := |fs| - 1;
      FiltersTouchOnlyWheresAndParams(st, fs[..n], ps[..n]);
      FilterTouchesOnlyWheresAndParams(ApplyFilters(st, fs[..n], ps[..n]), fs[n], ps[n]);
    }
  }

  /** With fresh placeholders no filter overwrites a parameter already bound. */
  lemma {:induction false} FreshPlaceholdersKeepParameters(st: QueryState, fs: seq<FilterInput>, ps: seq<string>)
    requires |fs| == |ps| && FreshPlaceholders(st, fs, ps)
    ensures var r := ApplyFilters(st, fs, ps);
      st.params.Keys <= r.params.Keys && forall k :: k in st.params ==> r.params[k] == st.params[k]
  {
    if |fs| > 0 {
      var n := |fs| - 1;
      FreshPlaceholdersKeepParameters(st, fs[..n], ps[..n]);
      FilterTouchesOnlyWheresAndParams(ApplyFilters(st, fs[..n], ps[..n]), fs[n], ps[n]);
    }
  }

  /** The sorts applied in order. */
  function ApplySorts(st: QueryState, ss: seq<SortInput>): QueryState
  {
    if |ss| == 0 then st else ApplySort(ApplySorts(st, ss[..|ss| - 1]), ss[|ss| - 1])
  }

  /** The ORDER BY clauses a list of sort fields contributes, in the list's order. */
  function SortClauses(ss: seq<SortInput>, rootAlias: string): seq<(string, Dir)>
  {
    if |ss| == 0 then []
    else
      var s := ss[|ss| - 1];
      SortClauses(ss[..|ss| - 1], rootAlias) +
        (if !SortApplies(s) then []
         else if s.direction == Annotation.Ascending then [(SortTarget(s, rootAlias), ASC)]
         else if s.direction == Annotation.Descending then [(SortTarget(s, rootAlias), DESC)]
         else [])
  }

  /** Applying sorts appends exactly their clauses, in query-string order, and changes nothing else. */
  lemma {:induction false} SortsAppendClauses(st: QueryState, ss: seq<SortInput>)
    ensures ApplySorts(st, ss) == st.(orderBys := st.orderBys + SortClauses(ss, st.rootAlias))
  {
    if |ss| > 0 {
      var n := |ss| - 1;
      SortsAppendClauses(st, ss[..n]);
      var mid := ApplySorts(st, ss[..n]);
      assert mid.rootAlias == st.rootAlias;
      if SortApplies(ss[n]) && (ss[n].direction == Annotation.Ascending || ss[n].direction == Annotation.Descending) {
        SortAppendsOneOrderBy(mid, ss[n]);
      } else {
        SortNoOp(mid, ss[n]);
      }
    }
  }

  /** The older sort fields applied in order. */
  function ApplyLegacySorts(st: QueryState, ss: seq<SortInput>): QueryState
  {
    if |ss| == 0 then st else ApplyLegacySort(ApplyLegacySorts(st, ss[..|ss| - 1]), ss[|ss| - 1])
  }

  /**
   * The Rfc14 filters applied in order until one fails: the state reached
   * and the failure, if any. The failing field has already added its
   * predicate when `getValue` overflows.
   */
  function ApplyRfc14Filters(st: QueryState, fs: seq<FilterInput>, ps: seq<string>): (QueryState, Option<Failure>)
    requires |fs| == |ps|
  {
    if |fs| == 0 then (st, None)
    else
      var (mid, failure) := ApplyRfc14Filters(st, fs[..|fs| - 1], ps[..|ps| - 1]);
      if failure.Some? then (mid, failure)
      else match ApplyRfc14Filter(mid, fs[|fs| - 1], ps[|ps| - 1])
        case Ok(next) => (next, None)
        case Err(e) => (LegacyWhere(mid, fs[|fs| - 1], ps[|ps| - 1]), Some(e))
  }

  /** An Rfc14 filter list fails iff one of its fields uses `in` or `nin`, and then with a stack overflow. */
  lemma {:induction false} Rfc14FiltersFailOnLists(st: QueryState, fs: seq<FilterInput>, ps: seq<string>)
    requires |fs| == |ps|
    ensures ApplyRfc14Filters(st, fs, ps).1.Some? <==> exists i :: 0 <= i < |fs| && IsListComparison(fs[i].comparison)
    ensures ApplyRfc14Filters(st, fs, ps).1.Some? ==> ApplyRfc14Filters(st, fs, ps).1 == Some(StackOverflow)
  {
    if |fs| > 0 {
      var n := |fs| - 1;
      Rfc14FiltersFailOnLists(st, fs[..n], ps[..n]);
      assert forall i :: 0 <= i < n ==> fs[..n][i] == fs[i];
    }
  }

  /** Each placeholder is new to the parameters bound before it, up to the first failure. */
  predicate Rfc14FreshPlaceholders(st: QueryState, fs: seq<FilterInput>, ps: seq<string>)
    requires |fs| == |ps|
  {
    |fs| == 0 ||
    (var n := |fs| - 1;
     var (mid, failure) := ApplyRfc14Filters(st, fs[..n], ps[..n]);
     Rfc14FreshPlaceholders(st, fs[..n], ps[..n]) && (failure.None? ==> ps[n] !in mid.params))
  }

  /** After the first failure nothing else is applied: the later fields and placeholders do not matter. */
  lemma {:induction false} Rfc14FailureSticks(st: QueryState, fs: seq<FilterInput>, ps: seq<string>, k: int)
    requires |fs| == |ps| && 0 <= k <= |fs|
    requires ApplyRfc14Filters(st, fs[..k], ps[..k]).1.Some?
    ensures ApplyRfc14Filters(st, fs, ps) == ApplyRfc14Filters(st, fs[..k], ps[..k])
    ensures Rfc14FreshPlaceholders(st, fs[..k], ps[..k]) ==> Rfc14FreshPlaceholders(st, fs, ps)
  {
    if k < |fs| {
      var n := |fs| - 1;
      assert fs[..n][..k] == fs[..k] && ps[..n][..k] == ps[..k];
      Rfc14FailureSticks(st, fs[..n], ps[..n], k);
    } else {
      assert fs[..k] == fs && ps[..k] == ps;
    }
  }

  /** One more field, applied after a failure-free prefix. */
  lemma Rfc14FiltersStep(st: QueryState, fs: seq<FilterInput>, ps: seq<string>, p: string, i: int)
    requires 0 <= i < |fs| && |ps| == i
    requires ApplyRfc14Filters(st, fs[..i], ps).1.None?
    ensures var mid := ApplyRfc14Filters(st, fs[..i], ps).0;
      ApplyRfc14Filters(st, fs[..i + 1], ps + [p]) ==
        (match ApplyRfc14Filter(mid, fs[i], p)
         case Ok(next) => (next, None)
         case Err(e) => (LegacyWhere(mid, fs[i], p), Some(e)))
    ensures Rfc14FreshPlaceholders(st, fs[..i + 1], ps + [p]) <==>
      Rfc14FreshPlaceholders(st, fs[..i], ps) && p !in ApplyRfc14Filters(st, fs[..i], ps).0.params
  {
    assert fs[..i + 1][..i] == fs[..i];
    assert (ps + [p])[..i] == ps;
  }

  /** Placeholders for the fields never reached can be anything. */
  lemma Rfc14PadAfterFailure(st: QueryState, fs: seq<FilterInput>, ps: seq<string>, rest: seq<string>)
    requires |ps| <= |fs| && |ps| + |rest| == |fs|
    requires ApplyRfc14Filters(st, fs[..|ps|], ps).1.Some?
    ensures ApplyRfc14Filters(st, fs, ps + rest) == ApplyRfc14Filters(st, fs[..|ps|], ps)
    ensures Rfc14FreshPlaceholders(st, fs[..|ps|], ps) ==> Rfc14FreshPlaceholders(st, fs, ps + rest)
  {
    assert (ps + rest)[..|ps|] == ps;
    Rfc14FailureSticks(st, fs, ps + rest, |ps|);
  }
}
