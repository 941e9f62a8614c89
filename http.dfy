/**
 * The part of the main request the core reads, each in the order PHP keeps:
 * the `filter` group of the query string (`filter[name][comparison]=value`;
 * None when absent or not an array, and a name whose entry is not itself an
 * array maps to None), the `sort` group (`sort[name]=direction`), the
 * `limit` parameter and the route attributes.
 */
module Http {
  import opened Wrappers

  datatype Request = Request(
    filter: Option<seq<(string, Option<seq<(string, string)>>)>>,
    sort: Option<seq<(string, string)>>,
    limit: Option<string>,
    attributes: seq<(string, string)>)
}
