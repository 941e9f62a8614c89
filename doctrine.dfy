/**
 * The part of Doctrine's QueryBuilder that the core touches: the root alias,
 * the projection, the AND-ed WHERE predicates, the bound parameters, the
 * ORDER BY clauses, DISTINCT, and the limit/offset.
 */
module Doctrine {
  import opened Wrappers

  datatype CmpOp = Eq | Neq | Gt | Gte | Lt | Lte | In | NotIn | Like

  /** A predicate; `param` names the bound parameter (`:param` in DQL). */
  datatype Expr =
    | IsNull(field: string)
    | IsNotNull(field: string)
    | Cmp(op: CmpOp, field: string, param: string)
    | Or(left: Expr, right: Expr)

  /** A bound parameter value: a string or, for IN lists, a list of strings. */
  datatype Value = Scalar(text: string) | List(items: seq<string>)

  datatype Dir = ASC | DESC

  /** The builder's state as a value. */
  datatype QueryState = QueryState(
    rootAlias: string,
    select: string,
    wheres: seq<Expr>,
    params: map<string, Value>,
    orderBys: seq<(string, Dir)>,
    distinct: bool,
    maxResults: Option<int>,
    firstResult: int)

  class QueryBuilder {
    const rootAlias: string
    var select: string
    var wheres: seq<Expr>
    var params: map<string, Value>
    var orderBys: seq<(string, Dir)>
    var distinct: bool
    var maxResults: Option<int>
    var firstResult: int

    function State(): QueryState
      reads this
    {
      QueryState(rootAlias, select, wheres, params, orderBys, distinct, maxResults, firstResult)
    }

    /** `createQueryBuilder(alias)`: selects the root entity, nothing else yet. */
    constructor (alias: string)
      ensures State() == QueryState(alias, alias, [], map[], [], false, None, 0)
    {
      rootAlias, select := alias, alias;
      wheres, params, orderBys := [], map[], [];
      distinct, maxResults, firstResult := false, None, 0;
    }

    method AndWhere(e: Expr)
      modifies this
      ensures State() == old(State()).(wheres := old(wheres) + [e])
    {
      wheres := wheres + [e];
    }

    method SetParameter(key: string, v: Value)
      modifies this
      ensures State() == old(State()).(params := old(params)[key := v])
    {
      params := params[key := v];
    }

    method AddOrderBy(field: string, dir: Dir)
      modifies this
      ensures State() == old(State()).(orderBys := old(orderBys) + [(field, dir)])
    {
      orderBys := orderBys + [(field, dir)];
    }

    method Distinct()
      modifies this
      ensures State() == old(State()).(distinct := true)
    {
      distinct := true;
    }

    method Select(projection: string)
      modifies this
      ensures State() == old(State()).(select := projection)
    {
      select := projection;
    }

    method SetMaxResults(n: Option<int>)
      modifies this
      ensures State() == old(State()).(maxResults := n)
    {
      maxResults := n;
    }

    method SetFirstResult(n: int)
      modifies this
      ensures State() == old(State()).(firstResult := n)
    {
      firstResult := n;
    }

    /** `clone $queryBuilder`: a new builder with the same state. */
    method Clone() returns (c: QueryBuilder)
      ensures fresh(c) && c.State() == State()
    {
      c := new QueryBuilder(rootAlias);
      c.select, c.wheres, c.params, c.orderBys := select, wheres, params, orderBys;
      c.distinct, c.maxResults, c.firstResult := distinct, maxResults, firstResult;
    }
  }

  /** The projection the pagination's total query selects. */
  function CountProjection(rootAlias: string): string
  {
    "COUNT(DISTINCT " + rootAlias + ")"
  }
}
