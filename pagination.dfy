/**
 * Pagination: the `limit` grammar ("N" or "O,N"), its two errors, the
 * `maxEntries` fallback, and the pagination trait of the two `ApiService`
 * revisions, which marks the query distinct, counts on a clone and then
 * sets limit and offset.
 */
module Pagination {
  import opened Wrappers
  import opened Text
  import opened Annotation
  import opened Exceptions
  import opened Http
  import opened Doctrine
  import opened Headers

  /** The two nullable fields `parsePagination` writes: offset and limit. */
  datatype Window = Window(offset: Option<int>, limit: Option<int>)

  /** The comma grammar of a present `limit` parameter, applied to the fields `w`. */
  function ParseLimit(parameter: string, w: Window): Result<Window, Failure>
  {
    var parts := Explode(',', parameter);
    if |parts| == 1 then Ok(w.(limit := Some(ToInt(parts[0]))))
    else if |parts| == 2 then Ok(Window(Some(ToInt(parts[0])), Some(ToInt(parts[1]))))
    else Err(PaginationException(InvalidLimitMessage))
  }

  /**
   * `parsePagination` as a transformer of the fields `w`. `fallback` says
   * whether an absent parameter sets the limit to `maxEntries` (both
   * `PaginationTrait`s) or leaves it alone (the Rfc14 services).
   */
  function ParsePagination(parameter: Option<string>, pagination: Option<Pagination>, fallback: bool, w: Window)
    : Result<Window, Failure>
  {
    if parameter.Some? then
      if pagination.None? then Err(PaginationException(LimitNotAvailableMessage))
      else ParseLimit(parameter.value, w)
    else if fallback && pagination.Some? then Ok(w.(limit := pagination.value.maxEntries))
    else Ok(w)
  }

  /** `getPaginationLimit` after parsing: the stored limit, else `maxEntries` where the trait falls back. */
  function ResolvedLimit(w: Window, pagination: Option<Pagination>, fallback: bool): Option<int>
  {
    if w.limit.Some? then w.limit
    else if fallback && pagination.Some? then pagination.value.maxEntries
    else None
  }

  /** `getPaginationOffset` after parsing: the stored offset, else 0. */
  function ResolvedOffset(w: Window): int
  {
    w.offset.GetOr(0)
  }

  /** A single number sets the limit to its value and leaves the offset as it was. */
  lemma LimitOnly(n: int, w: Window)
    ensures ParseLimit(IntToString(n), w) == Ok(w.(limit := Some(n)))
  {
    var s := IntToString(n);
    ExplodeImplode(',', [s]);
    assert Implode([','], [s]) == s;
    IntStringRoundTrip(n);
  }

  /** "O,N" sets offset O and limit N, whatever was stored before. */
  lemma OffsetAndLimit(o: int, n: int, w: Window)
    ensures ParseLimit(IntToString(o) + "," + IntToString(n), w) == Ok(Window(Some(o), Some(n)))
  {
    var a, b := IntToString(o), IntToString(n);
    assert Implode([','], [a, b]) == a + "," + b by {
      assert Implode([','], [a, b][1..]) == b;
    }
    ExplodeImplode(',', [a, b]);
    IntStringRoundTrip(o);
    IntStringRoundTrip(n);
  }

  /** Three or more comma-separated parts are refused. */
  lemma MoreThanTwoPartsRefused(parts: seq<string>, w: Window)
    requires |parts| >= 3
    requires forall i :: 0 <= i < |parts| ==> ',' !in parts[i]
    ensures ParseLimit(Implode([','], parts), w) == Err(PaginationException(InvalidLimitMessage))
  {
    ExplodeImplode(',', parts);
  }

  /** A client limit above `maxEntries` is taken as it is: nothing caps it. */
  lemma ClientLimitIsNotCapped(n: int, maxEntries: int, w: Window)
    requires n > maxEntries
    ensures ParsePagination(Some(IntToString(n)), Some(Pagination(Some(maxEntries))), true, w)
      == Ok(w.(limit := Some(n)))
  {
    LimitOnly(n, w);
  }

  /** Parsing again what parsing produced changes nothing, so the trait may parse on every getter call. */
  lemma ParseIsIdempotent(parameter: Option<string>, pagination: Option<Pagination>, fallback: bool, w: Window)
    requires ParsePagination(parameter, pagination, fallback, w).Ok?
    ensures var w' := ParsePagination(parameter, pagination, fallback, w).value;
      ParsePagination(parameter, pagination, fallback, w') == Ok(w')
  {
  }

  /** A `limit` parameter without a registered Pagination is refused. */
  lemma LimitNeedsPagination(parameter: string, fallback: bool, w: Window)
    ensures ParsePagination(Some(parameter), None, fallback, w) == Err(PaginationException(LimitNotAvailableMessage))
  {
  }

  /** Without a `limit` parameter the current traits use `maxEntries`; the Rfc14 services keep the limit unset. */
  lemma AbsentLimit(pagination: Pagination, w: Window)
    requires w.limit.None?
    ensures ParsePagination(None, Some(pagination), true, w) == Ok(w.(limit := pagination.maxEntries))
    ensures ResolvedLimit(ParsePagination(None, Some(pagination), true, w).value, Some(pagination), true) == pagination.maxEntries
    ensures ParsePagination(None, Some(pagination), false, w) == Ok(w)
    ensures ResolvedLimit(w, Some(pagination), false) == None
  {
  }

  /** Parsing fails exactly when a `limit` is given and either no Pagination is registered or it has more than two parts. */
  lemma ParseFailures(parameter: Option<string>, pagination: Option<Pagination>, fallback: bool, w: Window)
    ensures ParsePagination(parameter, pagination, fallback, w).Err? <==>
      parameter.Some? && (pagination.None? || |Explode(',', parameter.value)| > 2)
  {
  }

  /** Which `ApiService` revision a trait belongs to: `src/` or the older top-level copy. */
  datatype Revision = Current | Older

  /** The `pagination-total` header value: a string in the current revision, the integer in the older one. */
  function TotalHeader(revision: Revision, total: int): HeaderValue
  {
    if revision == Current then StringValue(IntToString(total)) else IntValue(total)
  }

  /** `PaginationTrait`, in the revision `revision`. */
  class PaginationTrait {
    /** The main request. */
    const request: Request
    const revision: Revision
    /** The header information service the total is reported to. */
    const headerInformation: HeaderInformationTrait
    var pagination: Option<Pagination>
    var paginationOffset: Option<int>
    var paginationLimit: Option<int>
    /** None while unset: the current revision's typed property is then uninitialised. */
    var paginationTotal: Option<int>

    function Fields(): Window
      reads this
    {
      Window(paginationOffset, paginationLimit)
    }

    /** What `parsePagination` does to the current fields. */
    function Parsed(): Result<Window, Failure>
      reads this
    {
      ParsePagination(request.limit, pagination, true, Fields())
    }

    constructor (request: Request, revision: Revision, headerInformation: HeaderInformationTrait)
      ensures this.request == request && this.revision == revision && this.headerInformation == headerInformation
      ensures pagination == None && Fields() == Window(None, None) && paginationTotal == None
    {
      this.request := request;
      this.revision := revision;
      this.headerInformation := headerInformation;
      pagination := None;
      paginationOffset := None;
      paginationLimit := None;
      paginationTotal := None;
    }

    /** `handleIsPaginatable`: registers the Pagination. */
    method HandleIsPaginatable(p: Pagination)
      modifies this
      ensures pagination == Some(p) && Fields() == old(Fields()) && paginationTotal == old(paginationTotal)
    {
      pagination := Some(p);
    }

    /** `parsePagination`; a thrown exception is returned as `failure`, with the fields as they were. */
    method ParsePaginationFields() returns (failure: Option<Failure>)
      modifies this
      ensures pagination == old(pagination) && paginationTotal == old(paginationTotal)
      ensures old(Parsed()).Err? ==> failure == Some(old(Parsed()).error) && Fields() == old(Fields())
      ensures old(Parsed()).Ok? ==> failure.None? && Fields() == old(Parsed()).value
    {
      var parameter := request.limit;
      if parameter.Some? {
        if pagination.None? {
          return Some(PaginationException(LimitNotAvailableMessage));
        }
        var parts := Explode(',', parameter.value);
        if |parts| == 1 {
          paginationLimit := Some(ToInt(parts[0]));
        } else if |parts| == 2 {
          paginationOffset := Some(ToInt(parts[0]));
          paginationLimit := Some(ToInt(parts[1]));
        } else {
          return Some(PaginationException(InvalidLimitMessage));
        }
      } else if pagination.Some? {
        paginationLimit := pagination.value.maxEntries;
      }
      return None;
    }

    /** `getPaginationOffset`: parses, then the stored offset or 0. */
    method GetPaginationOffset() returns (r: Result<int, Failure>)
      modifies this
      ensures pagination == old(pagination) && paginationTotal == old(paginationTotal)
      ensures old(Parsed()).Err? ==> r == Err(old(Parsed()).error) && Fields() == old(Fields())
      ensures old(Parsed()).Ok? ==> Fields() == old(Parsed()).value && r == Ok(ResolvedOffset(Fields()))
    {
      var failure := ParsePaginationFields();
      if failure.Some? {
        return Err(failure.value);
      }
      return Ok(paginationOffset.GetOr(0));
    }

    /** `getPaginationLimit`: parses, then the stored limit, else `maxEntries`, else null. */
    method GetPaginationLimit() returns (r: Result<Option<int>, Failure>)
      modifies this
      ensures pagination == old(pagination) && paginationTotal == old(paginationTotal)
      ensures old(Parsed()).Err? ==> r == Err(old(Parsed()).error) && Fields() == old(Fields())
      ensures old(Parsed()).Ok? ==> Fields() == old(Parsed()).value && r == Ok(ResolvedLimit(Fields(), pagination, true))
    {
      var failure := ParsePaginationFields();
      if failure.Some? {
        return Err(failure.value);
      }
      if paginationLimit.Some? {
        return Ok(paginationLimit);
      }
      return Ok(if pagination.Some? then pagination.value.maxEntries else None);
    }

    /** `setPaginationTotal`: stores the total and reports it as header `pagination-total`. */
    method SetPaginationTotal(total: int)
      modifies this, headerInformation
      ensures paginationTotal == Some(total) && pagination == old(pagination) && Fields() == old(Fields())
      ensures headerInformation.headerInformation ==
        old(headerInformation.headerInformation)["pagination-total" := TotalHeader(revision, total)]
    {
      paginationTotal := Some(total);
      headerInformation.AddHeaderInformation("pagination-total", TotalHeader(revision, total));
    }

    /** `getPaginationTotal`: null while unset in the older revision, an `Error` in the current one. */
    method GetPaginationTotal() returns (r: Result<Option<int>, Failure>)
      ensures revision == Older ==> r == Ok(paginationTotal)
      ensures revision == Current && paginationTotal.Some? ==> r == Ok(paginationTotal)
      ensures revision == Current && paginationTotal.None? ==> r == Err(UninitializedProperty("paginationTotal"))
    {
      if revision == Current && paginationTotal.None? {
        return Err(UninitializedProperty("paginationTotal"));
      }
      return Ok(paginationTotal);
    }

    /**
     * `applyPaginationToQueryBuilder`. `count` is the result of executing a
     * query in the given state (None: it threw); `counted` is the state of
     * the clone that was counted, if any.
     */
    method ApplyPaginationToQueryBuilder(qb: QueryBuilder, ormInstalled: bool, count: QueryState -> Option<int>)
      returns (failure: Option<Failure>, ghost counted: Option<QueryState>)
      modifies this, qb, headerInformation
      ensures !ormInstalled ==> (failure == Some(MissingDependencyException(MissingOrmMessage)) &&
        unchanged(this) && unchanged(qb) && unchanged(headerInformation) && counted.None?)
      ensures ormInstalled && old(pagination).None? ==>
        (failure.None? && unchanged(this) && unchanged(qb) && unchanged(headerInformation) && counted.None?)
      ensures ormInstalled && old(pagination).Some? ==> ApplyEffect(old(qb.State()), count, counted, failure, qb.State())
    {
      counted := None;
      if !ormInstalled {
        return Some(MissingDependencyException(MissingOrmMessage)), counted;
      }
      if pagination.None? {
        return None, counted;
      }
      qb.Distinct();
      var totalQueryBuilder := qb.Clone();
      totalQueryBuilder.Select(CountProjection(totalQueryBuilder.rootAlias));
      counted := Some(totalQueryBuilder.State());
      var total := count(totalQueryBuilder.State());
      if total.Some? {
        SetPaginationTotal(total.value);
      }
      var limit := GetPaginationLimit();
      if limit.Err? {
        return Some(limit.error), counted;
      }
      qb.SetMaxResults(limit.value);
      ghost var w := Fields();
      ParseIsIdempotent(request.limit, pagination, true, old(Fields()));
      var offset := GetPaginationOffset();
      assert Fields() == w;
      qb.SetFirstResult(offset.value);
      failure := None;
    }

    /**
     * The effect of applying a registered pagination to a builder in state
     * `st`: the query is marked distinct; the clone counted is that state
     * projected onto `COUNT(DISTINCT alias)`; then, unless parsing fails,
     * limit and offset are set to the resolved values. A count that throws
     * leaves the total unset.
     */
    twostate predicate ApplyEffect(st: QueryState, count: QueryState -> Option<int>, new counted: Option<QueryState>,
      new failure: Option<Failure>, new result: QueryState)
      reads this, headerInformation
    {
      var marked := st.(distinct := true);
      var countState := marked.(select := CountProjection(st.rootAlias));
      var total := count(countState);
      var parsed := old(Parsed());
      counted == Some(countState) &&
      pagination == old(pagination) &&
      paginationTotal == (if total.Some? then total else old(paginationTotal)) &&
      headerInformation.headerInformation == (if total.Some?
        then old(headerInformation.headerInformation)["pagination-total" := TotalHeader(revision, total.value)]
        else old(headerInformation.headerInformation)) &&
      (parsed.Err? ==> failure == Some(parsed.error) && result == marked && Fields() == old(Fields())) &&
      (parsed.Ok? ==> (failure.None? && Fields() == parsed.value &&
        result == marked.(maxResults := ResolvedLimit(parsed.value, pagination, true),
                          firstResult := ResolvedOffset(parsed.value))))
    }
  }
}
