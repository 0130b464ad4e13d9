/**
 * The product listing: it reads `q` and `page` from the URL, fetches one page of the
 * catalogue (or of a search), and renders a spinner, an error, an empty notice or the
 * grid with its pagination controls. `encodeURIComponent` is the parameter `encodeComponent`.
 */
module ProductGrid {
  import opened Types
  import Text
  import opened UrlSearchParams

  const BaseUrl := "http://localhost:3000/api/v1/products"
  const LoadError := "Failed to load products. Please check your connection."

  /** `searchParams.get("q") || ""`. */
  function QueryOf(ps: Params): (q: string)
    ensures Get(ps, "q").None? || Get(ps, "q").value == "" ==> q == ""
    ensures Get(ps, "q").Some? ==> q == Get(ps, "q").value
  {
    OrElse(Get(ps, "q"), "")
  }

  /** `searchParams.get("page") || "1"`: a missing or empty page is the first. */
  function PageOf(ps: Params): (p: string)
    ensures Get(ps, "page").None? || Get(ps, "page").value == "" ==> p == "1"
    ensures Get(ps, "page").Some? && Get(ps, "page").value != "" ==> p == Get(ps, "page").value
  {
    OrElse(Get(ps, "page"), "1")
  }

  predicate StartsWith(s: string, prefix: string)
  {
    |prefix| <= |s| && s[..|prefix|] == prefix
  }

  predicate EndsWith(s: string, suffix: string)
  {
    |suffix| <= |s| && s[|s| - |suffix|..] == suffix
  }

  /** The request URL: the search endpoint with the encoded query for a non-empty query,
      the index endpoint otherwise; both end with the page. */
  function Endpoint(query: string, page: string, encodeComponent: string -> string): (url: string)
    ensures StartsWith(url, BaseUrl) && EndsWith(url, "page=" + page)
    ensures query != "" <==> StartsWith(url, BaseUrl + "/search?q=")
    ensures query != "" ==> url == BaseUrl + "/search?q=" + encodeComponent(query) + "&page=" + page
    ensures query == "" ==> url == BaseUrl + "?page=" + page
  {
    if query != "" then
      var url := BaseUrl + "/search?q=" + encodeComponent(query) + "&page=" + page;
      assert url[..|BaseUrl|] == BaseUrl;
      assert url[..|BaseUrl + "/search?q="|] == BaseUrl + "/search?q=";
      assert url == (BaseUrl + "/search?q=" + encodeComponent(query) + "&") + ("page=" + page);
      url
    else
      var url := BaseUrl + "?page=" + page;
      assert url[..|BaseUrl|] == BaseUrl;
      assert url[|BaseUrl|] == '?';
      assert (BaseUrl + "/search?q=")[|BaseUrl|] == '/';
      assert url == (BaseUrl + "?") + ("page=" + page);
      url
  }

  /** `PaginationMeta`. */
  datatype Meta = Meta(currentPage: int, totalPages: int, totalItems: int, perPage: int)

  /** The decoded listing reply; a missing (or null) member is None. */
  datatype ProductsReply = ProductsReply(products: Option<seq<Product>>, meta: Option<Meta>)

  /** The pagination row is shown only with metadata for more than one page. */
  function ShowPagination(meta: Option<Meta>): bool
  {
    meta.Some? && meta.value.totalPages > 1
  }

  function PrevDisabled(m: Meta): bool { m.currentPage == 1 }

  function NextDisabled(m: Meta): bool { m.currentPage == m.totalPages }

  /** On a page within range, an enabled arrow leads to a page within range. */
  lemma PaginationStaysInRange(m: Meta)
    requires 1 <= m.currentPage <= m.totalPages
    ensures !PrevDisabled(m) ==> 1 <= m.currentPage - 1 <= m.totalPages
    ensures !NextDisabled(m) ==> 1 <= m.currentPage + 1 <= m.totalPages
    ensures m.totalPages > 1 ==> !PrevDisabled(m) || !NextDisabled(m)
  {
  }

  /** What the component renders. */
  datatype View =
    | Spinner
    | ErrorText(message: string)
    | NoResults(query: string, showClear: bool)
    | Listing(products: seq<Product>, pagination: bool)

  class Grid {
    var products: seq<Product>
    var meta: Option<Meta>
    var loading: bool
    var error: Option<string>

    constructor ()
      ensures products == [] && meta.None? && loading && error.None?
    {
      products := [];
      meta := None;
      loading := true;
      error := None;
    }

    /**
     * The effect run for each (query, page): it requests the endpoint, and on an ok reply
     * takes its products (none when missing) and metadata (null when missing). An error
     * status and a throw both end in the connection message and leave the list as it was;
     * `loading` ends false either way.
     */
    method FetchProducts(params: Params, encodeComponent: string -> string, reply: Outcome<ProductsReply>)
      returns (endpoint: string)
      modifies this
      ensures endpoint == Endpoint(QueryOf(params), PageOf(params), encodeComponent)
      ensures !loading
      ensures reply.Resolved? && reply.ok ==>
        error.None? && meta == reply.body.meta &&
        (reply.body.products.Some? ==> products == reply.body.products.value) &&
        (reply.body.products.None? ==> products == [])
      ensures !(reply.Resolved? && reply.ok) ==>
        error == Some(LoadError) && products == old(products) && meta == old(meta)
    {
      loading := true;
      error := None;
      var query := OrElse(Get(params, "q"), "");
      var page := OrElse(Get(params, "page"), "1");
      endpoint := Endpoint(query, page, encodeComponent);
      match reply {
        case Threw(_) =>
          error := Some(LoadError);
        case Resolved(ok, data) =>
          if !ok {
            error := Some(LoadError);
          } else {
            products := if data.products.Some? then data.products.value else [];
            meta := data.meta;
          }
      }
      loading := false;
    }

    /**
     * The render decision, in the order the component checks: loading, then an error,
     * then an empty list (with "Clear search" only when there is a query), then the grid.
     */
    function Render(query: string): (v: View)
      reads this
      ensures loading <==> v == Spinner
      ensures v.ErrorText? <==> !loading && error.Some? && error.value != ""
      ensures v.ErrorText? ==> v.message == error.value
      ensures v.NoResults? ==> products == [] && v.query == query && (v.showClear <==> query != "")
      ensures v.Listing? ==>
        products != [] && v.products == products && (v.pagination <==> ShowPagination(meta))
    {
      if loading then Spinner
      else if error.Some? && error.value != "" then ErrorText(error.value)
      else if |products| == 0 then NoResults(query, query != "")
      else Listing(products, ShowPagination(meta))
    }
  }

  /** `handlePageChange(newPage)`: a copy of the parameters with `page` set to the new
      number, every other pair kept in order, pushed as "/?" and the copy. */
  method HandlePageChange(searchParams: Params, newPage: int, encode: string -> string)
    returns (next: Params, target: string)
    ensures next == Set(searchParams, "page", Text.IntToString(newPage))
    ensures Get(next, "page") == Some(Text.IntToString(newPage))
    ensures Delete(next, "page") == Delete(searchParams, "page")
    ensures forall name :: name != "page" ==> Get(next, name) == Get(searchParams, name)
    ensures target == "/?" + Serialize(next, encode)
  {
    var params := new SearchParams(searchParams);
    params.SetParam("page", Text.IntToString(newPage));
    next := params.list;
    forall name | name != "page" ensures Get(next, name) == Get(searchParams, name) {
      GetAfterDeleteOther(next, "page", name);
      GetAfterDeleteOther(searchParams, "page", name);
    }
    target := "/?" + params.ToString(encode);
  }

  /** After a successful fetch, a failed one renders the error, not the earlier products. */
  method FailureShowsError(params: Params, encodeComponent: string -> string,
                           first: ProductsReply, second: Outcome<ProductsReply>, query: string)
    returns (view: View)
    requires !(second.Resolved? && second.ok)
    ensures view == ErrorText(LoadError)
  {
    var grid := new Grid();
    var _ := grid.FetchProducts(params, encodeComponent, Resolved(true, first));
    var _ := grid.FetchProducts(params, encodeComponent, second);
    view := grid.Render(query);
  }
}
