/**
 * The `ApiService` of both revisions: the filter, sort and pagination
 * traits composed over one request and one header information service,
 * applied to a query builder in the fixed order filters, sorts,
 * pagination.
 */
module ApiServices {
  import opened Wrappers
  import opened Exceptions
  import opened Http
  import opened Doctrine
  import opened Headers
  import opened Input
  import opened Translation
  import opened ApiFilter
  import opened ApiSort
  import opened Pagination

  class ApiService {
    const request: Request
    const revision: Revision
    const headerInformation: HeaderInformationTrait
    /** The state of the three traits, one object each. */
    const filter: FilterTrait
    const sort: SortTrait
    const pagination: PaginationTrait

    /** The traits read the service's own request and header service. */
    predicate Valid()
    {
      filter.request == request && sort.request == request && pagination.request == request &&
      pagination.revision == revision && pagination.headerInformation == headerInformation
    }

    /** The constructor stores its two collaborators; every other field starts as the traits declare it. */
    constructor (request: Request, revision: Revision, headerInformation: HeaderInformationTrait)
      ensures Valid() && this.request == request && this.revision == revision
      ensures this.headerInformation == headerInformation && unchanged(headerInformation)
      ensures fresh(filter) && fresh(sort) && fresh(pagination)
      ensures filter.filterFields == None && filter.filters == []
      ensures sort.sortFields == None && sort.sorts == []
      ensures pagination.pagination == None && pagination.Fields() == Window(None, None) && pagination.paginationTotal == None
    {
      this.request := request;
      this.revision := revision;
      this.headerInformation := headerInformation;
      filter := new FilterTrait(request);
      sort := new SortTrait(request);
      pagination := new PaginationTrait(request, revision, headerInformation);
    }

    /**
     * `applyToQueryBuilder($qb)`. `afterFilters` and `afterSorts` are the
     * builder's states between the phases, `ps` the filter placeholders and
     * `counted` the state of the clone that was counted.
     */
    method ApplyToQueryBuilder(qb: QueryBuilder, ormInstalled: bool, count: QueryState -> Option<int>)
      returns (failure: Option<Failure>, ghost ps: seq<string>, ghost afterFilters: QueryState,
               ghost afterSorts: QueryState, ghost counted: Option<QueryState>)
      requires Valid()
      modifies filter, sort, pagination, headerInformation, qb
      ensures !ormInstalled ==> (failure == Some(MissingDependencyException(MissingOrmMessage)) &&
        unchanged(filter, sort, pagination, headerInformation, qb))
      ensures ormInstalled ==> (
        filter.filters == old(filter.filters) && sort.sorts == old(sort.sorts) &&
        filter.ParsedOnce() && sort.ParsedOnce() && |ps| == |filter.Parsed()| &&
        FreshPlaceholders(old(qb.State()), filter.Parsed(), ps) &&
        afterFilters == ApplyFilters(old(qb.State()), filter.Parsed(), ps) &&
        afterSorts == ApplySorts(afterFilters, sort.Parsed()))
      ensures ormInstalled && old(pagination.pagination).None? ==>
        (failure.None? && qb.State() == afterSorts && unchanged(pagination, headerInformation))
      ensures ormInstalled && old(pagination.pagination).Some? ==>
        pagination.ApplyEffect(afterSorts, count, counted, failure, qb.State())
    {
      ps, afterFilters, afterSorts, counted := [], qb.State(), qb.State(), None;
      if !ormInstalled {
        return Some(MissingDependencyException(MissingOrmMessage)), ps, afterFilters, afterSorts, counted;
      }
      var f;
      f, ps := filter.ApplyFilteredFieldsToQueryBuilder(qb, ormInstalled);
      afterFilters := qb.State();
      ghost var filtered := filter.Parsed();
      f := sort.ApplySortedFieldsToQueryBuilder(qb, ormInstalled);
      afterSorts := qb.State();
      ghost var sorted := sort.Parsed();
      failure, counted := pagination.ApplyPaginationToQueryBuilder(qb, ormInstalled, count);
      assert filter.Parsed() == filtered && sort.Parsed() == sorted;
    }
  }

  /**
   * The count that `ApplyToQueryBuilder` hands to pagination runs on the
   * filtered and sorted query: every predicate and parameter of the filters,
   * the ORDER BY clauses of the sorts, and `COUNT(DISTINCT alias)`.
   */
  lemma CountSeesFiltersAndSorts(st: QueryState, fs: seq<FilterInput>, ps: seq<string>, ss: seq<SortInput>,
                                 counted: Option<QueryState>)
    requires |fs| == |ps|
    requires var afterSorts := ApplySorts(ApplyFilters(st, fs, ps), ss);
      counted == Some(afterSorts.(distinct := true).(select := CountProjection(afterSorts.rootAlias)))
    ensures var filtered := ApplyFilters(st, fs, ps);
      counted.value.wheres == filtered.wheres && counted.value.params == filtered.params && st.wheres <= filtered.wheres
    ensures counted.value.orderBys == st.orderBys + SortClauses(ss, st.rootAlias)
    ensures counted.value.distinct && counted.value.select == "COUNT(DISTINCT " + st.rootAlias + ")"
  {
    FiltersTouchOnlyWheresAndParams(st, fs, ps);
    SortsAppendClauses(ApplyFilters(st, fs, ps), ss);
  }
}
