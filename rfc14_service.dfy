/**
 * `Rfc14Service`: one class carrying filters, sorts and pagination over
 * one request. Its filter, sort and pagination members run the code of
 * `FilterFromRequestQuery`, the Rfc14 sort trait and
 * `PaginationFromRequestQuery`, so the service is modelled as those three
 * objects plus its own `applyToQueryBuilder`.
 */
module Rfc14 {
  import opened Wrappers
  import opened Exceptions
  import opened Http
  import opened Doctrine
  import opened Input
  import opened Translation
  import opened ApiSort
  import opened Pagination
  import opened Rfc14Components

  class Rfc14Service {
    const request: Request
    const filter: FilterFromRequestQuery
    const sort: SortTrait
    const pagination: PaginationFromRequestQuery

    predicate Valid()
    {
      filter.request == request && sort.request == request && pagination.request == request
    }

    /** The constructor stores the request; every list and pagination field starts unset. */
    constructor (request: Request)
      ensures Valid() && this.request == request
      ensures fresh(filter) && fresh(sort) && fresh(pagination)
      ensures filter.filterFields == None && filter.filters == []
      ensures sort.sortFields == None && sort.sorts == []
      ensures pagination.pagination == None && pagination.Fields() == Window(None, None) && pagination.total == None
    {
      this.request := request;
      filter := new FilterFromRequestQuery(request);
      sort := new SortTrait(request);
      pagination := new PaginationFromRequestQuery(request);
    }

    /** The sort and pagination phases of `applyToQueryBuilder`, run once the filters succeeded. */
    method ApplySortsAndPagination(qb: QueryBuilder, count: QueryState -> Option<int>)
      returns (failure: Option<Failure>, ghost afterSorts: QueryState, ghost counted: Option<QueryState>)
      requires Valid()
      modifies sort, pagination, qb
      ensures sort.sorts == old(sort.sorts)
      ensures sort.ParsedOnce() && afterSorts == ApplySorts(old(qb.State()), sort.Parsed())
      ensures old(pagination.pagination).None? ==> (failure.None? && qb.State() == afterSorts && unchanged(pagination))
      ensures old(pagination.pagination).Some? ==> pagination.ApplyEffect(afterSorts, count, counted, failure, qb.State())
    {
      sort.ApplySortedFields(qb);
      afterSorts, counted := qb.State(), None;
      if pagination.pagination.None? {
        return None, afterSorts, counted;
      }
      ghost var sorted := sort.Parsed();
      failure, counted := pagination.ApplyToQueryBuilder(qb, count);
      assert sort.Parsed() == sorted;
    }

    /**
     * `applyToQueryBuilder($qb)`: filters up to the first failure, then
     * sorts, then, only with a registered Pagination, the count on a clone
     * and limit and offset. `afterFilters` and `afterSorts` are the
     * builder's states between the phases.
     */
    method ApplyToQueryBuilder(qb: QueryBuilder, count: QueryState -> Option<int>)
      returns (failure: Option<Failure>, ghost ps: seq<string>, ghost afterFilters: QueryState,
               ghost afterSorts: QueryState, ghost counted: Option<QueryState>)
      requires Valid()
      modifies filter, sort, pagination, qb
      ensures filter.filters == old(filter.filters) && sort.sorts == old(sort.sorts)
      ensures filter.ParsedOnce() && |ps| == |filter.Parsed()|
      ensures Rfc14FreshPlaceholders(old(qb.State()), filter.Parsed(), ps)
      ensures var (st, filterFailure) := ApplyRfc14Filters(old(qb.State()), filter.Parsed(), ps);
        afterFilters == st &&
        (filterFailure.Some? ==> (failure == filterFailure && qb.State() == st && unchanged(sort, pagination))) &&
        (filterFailure.None? ==> (sort.ParsedOnce() && afterSorts == ApplySorts(st, sort.Parsed())))
      ensures ApplyRfc14Filters(old(qb.State()), filter.Parsed(), ps).1.None? && old(pagination.pagination).None? ==>
        (failure.None? && qb.State() == afterSorts && unchanged(pagination))
      ensures ApplyRfc14Filters(old(qb.State()), filter.Parsed(), ps).1.None? && old(pagination.pagination).Some? ==>
        pagination.ApplyEffect(afterSorts, count, counted, failure, qb.State())
    {
      afterSorts, counted := qb.State(), None;
      failure, ps := filter.ApplyToQueryBuilder(qb);
      afterFilters := qb.State();
      if failure.Some? {
        return;
      }
      ghost var filtered := filter.Parsed();
      failure, afterSorts, counted := ApplySortsAndPagination(qb, count);
      assert filter.Parsed() == filtered;
    }
  }
}
