/**
 * The header search box: its initial text comes from the `q` parameter, and a (debounced)
 * search rewrites the parameters and replaces the route.
 */
module SearchBar {
  import opened Types
  import opened UrlSearchParams

  /** `searchParams.get("q") || ""`: the term the URL currently searches for. */
  function TermOf(ps: Params): (t: string)
    ensures Get(ps, "q").None? ==> t == ""
    ensures Get(ps, "q").Some? ==> t == Get(ps, "q").value
  {
    OrElse(Get(ps, "q"), "")
  }

  /** The route a search replaces the current one with. */
  function Href(ps: Params, encode: string -> string): string
  {
    "/?" + Serialize(ps, encode)
  }

  /**
   * `handleSearch(term)`. A term equal to the current one does nothing. Otherwise a copy
   * of the parameters gets `q` set to the term (or deleted for an empty term) and `page`
   * deleted, every other pair is kept in order, and the route becomes "/?" and the copy.
   */
  method HandleSearch(searchParams: Params, term: string, encode: string -> string)
    returns (next: Option<Params>, target: Option<string>)
    ensures next.None? <==> term == TermOf(searchParams)
    ensures target.None? <==> next.None?
    ensures next.Some? ==> target == Some(Href(next.value, encode))
    ensures next.Some? && term != "" ==> Get(next.value, "q") == Some(term)
    ensures next.Some? && term == "" ==> Get(next.value, "q").None?
    ensures next.Some? ==>
      next.value == Delete(if term != "" then Set(searchParams, "q", term) else Delete(searchParams, "q"), "page")
    ensures next.Some? ==> Get(next.value, "page").None?
    ensures next.Some? ==> TermOf(next.value) == term
    ensures next.Some? ==>
      Delete(Delete(next.value, "q"), "page") == Delete(Delete(searchParams, "q"), "page")
  {
    var currentTerm := OrElse(Get(searchParams, "q"), "");
    if term == currentTerm {
      return None, None;
    }
    var params := new SearchParams(searchParams);
    if term != "" {
      params.SetParam("q", term);
    } else {
      params.DeleteParam("q");
      DeleteIdempotent(searchParams, "q");
    }
    ghost var afterQ := params.list;
    params.DeleteParam("page");
    GetAfterDeleteOther(afterQ, "page", "q");
    DeleteCommutes(afterQ, "q", "page");
    DeleteCommutes(searchParams, "q", "page");
    DeleteIdempotent(Delete(afterQ, "q"), "page");
    DeleteIdempotent(Delete(searchParams, "q"), "page");
    next := Some(params.list);
    target := Some("/?" + params.ToString(encode));
  }
}
