/**
 * The vendor's product list page: the list, the loading flag and the three
 * filter inputs it keeps, the query it sends to the list endpoint, the
 * client-side delete, and what it renders. Each method runs a handler
 * together with the fetch it starts; how that fetch ends is a parameter.
 */
module ProductsPage {
  import opened Wrappers
  import Js
  import UrlParams
  import ApiProducts

  /** The fields of a listed product the page looks at. */
  datatype Product = Product(id: string, title: string, status: string)

  /** The request's query: status unless 'all', the sort column, descending order, and a non-empty search. */
  function FetchParams(status: string, sortBy: string, search: string): (r: seq<UrlParams.Param>)
    ensures UrlParams.Get(r, "status") == (if status != "all" then Some(status) else None)
    ensures UrlParams.Get(r, "sortBy") == Some(sortBy)
    ensures UrlParams.Get(r, "sortOrder") == Some("desc")
    ensures UrlParams.Get(r, "search") == (if search != "" then Some(search) else None)
    ensures UrlParams.Get(r, "page") == None && UrlParams.Get(r, "pageSize") == None
  {
    var s: seq<UrlParams.Param> := if status != "all" then [UrlParams.Param("status", status)] else [];
    var r := s + [UrlParams.Param("sortBy", sortBy), UrlParams.Param("sortOrder", "desc")]
      + (if search != "" then [UrlParams.Param("search", search)] else []);
    FetchParamsGet(s, sortBy, search, status);
    r
  }

  lemma FetchParamsGet(s: seq<UrlParams.Param>, sortBy: string, search: string, status: string)
    requires s == if status != "all" then [UrlParams.Param("status", status)] else []
    ensures var r := s + [UrlParams.Param("sortBy", sortBy), UrlParams.Param("sortOrder", "desc")]
      + (if search != "" then [UrlParams.Param("search", search)] else []);
      && UrlParams.Get(r, "status") == (if status != "all" then Some(status) else None)
      && UrlParams.Get(r, "sortBy") == Some(sortBy)
      && UrlParams.Get(r, "sortOrder") == Some("desc")
      && UrlParams.Get(r, "search") == (if search != "" then Some(search) else None)
      && UrlParams.Get(r, "page") == None && UrlParams.Get(r, "pageSize") == None
  {
    var t: seq<UrlParams.Param> := if search != "" then [UrlParams.Param("search", search)] else [];
    var u := [UrlParams.Param("sortBy", sortBy), UrlParams.Param("sortOrder", "desc")] + t;
    var r := s + u;
    assert r == s + [UrlParams.Param("sortBy", sortBy), UrlParams.Param("sortOrder", "desc")] + t;
    GetCons(UrlParams.Param("sortBy", sortBy), [UrlParams.Param("sortOrder", "desc")] + t);
    GetCons(UrlParams.Param("sortOrder", "desc"), t);
    assert u == [UrlParams.Param("sortBy", sortBy)] + ([UrlParams.Param("sortOrder", "desc")] + t);
    if search != "" {
      GetCons(UrlParams.Param("search", search), []);
      assert t == [UrlParams.Param("search", search)] + [];
    }
    if status != "all" {
      GetCons(UrlParams.Param("status", status), u);
      assert r == [UrlParams.Param("status", status)] + u;
    } else {
      assert r == u;
    }
  }

  /** `get` on a list with a known first pair. */
  lemma GetCons(p: UrlParams.Param, ps: seq<UrlParams.Param>)
    ensures forall name :: UrlParams.Get([p] + ps, name) == if p.name == name then Some(p.value) else UrlParams.Get(ps, name)
  {
    assert ([p] + ps)[1..] == ps;
  }

  /**
   * What the list endpoint reads from that query: the page's filters come
   * through, the first page of twenty is asked for, and an empty search is
   * not sent.
   */
  lemma EndpointReadsPageFilters(status: string, sortBy: string, search: string)
    requires sortBy != ""
    ensures var f := ApiProducts.ReadFilters(FetchParams(status, sortBy, search));
      && f.status == (if status != "all" && status != "" then Some(status) else None)
      && f.sortBy == Some(sortBy) && f.sortOrder == Some("desc")
      && f.search == (if search != "" then Some(search) else None)
      && f.page == Some(Js.ParseInt("1")) && f.pageSize == Some(Js.ParseInt("20"))
  {
  }

  /** `products.filter(p => p.id !== id)` */
  function Remove(products: seq<Product>, id: string): (r: seq<Product>)
    ensures |r| <= |products|
    ensures forall p :: p in r <==> p in products && p.id != id
    decreases |products|
  {
    if |products| == 0 then []
    else (if products[0].id != id then [products[0]] else []) + Remove(products[1..], id)
  }

  /** Deleting keeps the order of the remaining products: the result is a subsequence of the list. */
  predicate IsSubsequence(xs: seq<Product>, ys: seq<Product>)
    decreases |ys|
  {
    |xs| == 0 || (|ys| > 0 && ((xs[0] == ys[0] && IsSubsequence(xs[1..], ys[1..])) || IsSubsequence(xs, ys[1..])))
  }

  lemma {:induction false} RemoveKeepsOrder(products: seq<Product>, id: string)
    ensures IsSubsequence(Remove(products, id), products)
    decreases |products|
  {
    if |products| > 0 {
      var rest := Remove(products[1..], id);
      RemoveKeepsOrder(products[1..], id);
      if products[0].id != id {
        assert Remove(products, id) == [products[0]] + rest;
        assert ([products[0]] + rest)[1..] == rest;
      } else {
        assert Remove(products, id) == rest;
      }
    }
  }

  /**
   * Deleting keeps every other product as many times as the list held it and
   * drops every product with that id: the list loses exactly the deleted rows.
   */
  lemma {:induction false} RemoveMultiplicity(products: seq<Product>, id: string, p: Product)
    ensures multiset(Remove(products, id))[p] == if p.id == id then 0 else multiset(products)[p]
    decreases |products|
  {
    if |products| > 0 {
      RemoveMultiplicity(products[1..], id, p);
      assert products == [products[0]] + products[1..];
      assert multiset(products) == multiset([products[0]]) + multiset(products[1..]);
    }
  }

  /** A product without that id survives the delete; deleting twice is deleting once. */
  lemma {:induction false} RemoveIdempotent(products: seq<Product>, id: string)
    ensures Remove(Remove(products, id), id) == Remove(products, id)
    decreases |products|
  {
    if |products| > 0 {
      RemoveIdempotent(products[1..], id);
      var rest := Remove(products[1..], id);
      if products[0].id != id {
        assert ([products[0]] + rest)[1..] == rest;
      } else {
        assert [] + rest == rest;
      }
    }
  }

  /** Deleting an id the list does not hold leaves the list as it was. */
  lemma {:induction false} RemoveAbsent(products: seq<Product>, id: string)
    requires forall k :: 0 <= k < |products| ==> products[k].id != id
    ensures Remove(products, id) == products
    decreases |products|
  {
    if |products| > 0 {
      assert forall k :: 0 <= k < |products[1..]| ==> products[1..][k] == products[k + 1];
      RemoveAbsent(products[1..], id);
      assert [products[0]] + products[1..] == products;
    }
  }

  /** How the list request ended. `Fetched` carries `data.products`, which may be absent. */
  datatype FetchResult = Threw | NotOk | Fetched(products: Option<seq<Product>>)

  datatype Toast = Success(text: string) | Failure(text: string)

  /** The message of the empty list: filtered or truly empty. */
  function EmptyMessage(search: string, status: string): (r: string)
    ensures r == "No products found matching your filters." <==> (search != "" || status != "all")
  {
    if search != "" || status != "all" then "No products found matching your filters."
    else "No products yet. Create your first product to get started."
  }

  /** "Showing n product(s)" */
  function CountLabel(n: nat, numberText: nat -> string): (r: string)
    ensures n == 1 ==> r == "Showing " + numberText(1) + " product"
    ensures n != 1 ==> r == "Showing " + numberText(n) + " products"
  {
    "Showing " + numberText(n) + " product" + (if n != 1 then "s" else "")
  }

  datatype View = Skeleton | Empty(message: string) | Grid(products: seq<Product>, countLabel: string)

  class Page {
    var products: seq<Product>
    var loading: bool
    var search: string
    var status: string
    var sortBy: string
    var toasts: seq<Toast>
    /** The query of every list request sent, in order. */
    var requests: seq<seq<UrlParams.Param>>

    /** The initial state, then the mount effect's fetch. */
    constructor (result: FetchResult)
      ensures search == "" && status == "all" && sortBy == "createdAt"
      ensures requests == [FetchParams("all", "createdAt", "")]
      ensures !loading
      ensures result.Fetched? ==> products == ProductsOrEmpty(result.products) && toasts == []
      ensures !result.Fetched? ==> products == [] && toasts == [Failure("Failed to load products")]
    {
      products := [];
      loading := true;
      search := "";
      status := "all";
      sortBy := "createdAt";
      toasts := [];
      requests := [];
      new;
      FetchProducts(result);
    }

    /** `fetchProducts`: sends the current filters; the list is replaced only by a successful answer. */
    method FetchProducts(result: FetchResult)
      modifies this
      ensures !loading
      ensures requests == old(requests) + [FetchParams(status, sortBy, search)]
      ensures result.Fetched? ==> products == ProductsOrEmpty(result.products) && toasts == old(toasts)
      ensures !result.Fetched? ==>
        products == old(products) && toasts == old(toasts) + [Failure("Failed to load products")]
      ensures search == old(search) && status == old(status) && sortBy == old(sortBy)
    {
      loading := true;
      requests := requests + [FetchParams(status, sortBy, search)];
      match result {
        case Fetched(ps) =>
          products := ProductsOrEmpty(ps);
        case _ =>
          toasts := toasts + [Failure("Failed to load products")];
      }
      loading := false;
    }

    /** Typing in the search box changes the input only; nothing is fetched. */
    method SetSearch(value: string)
      modifies this
      ensures search == value
      ensures products == old(products) && requests == old(requests) && status == old(status)
      ensures sortBy == old(sortBy) && loading == old(loading) && toasts == old(toasts)
    {
      search := value;
    }

    /** `handleSearch`: submitting the search form refetches with the current inputs. */
    method HandleSearch(result: FetchResult)
      modifies this
      ensures !loading
      ensures requests == old(requests) + [FetchParams(status, sortBy, search)]
      ensures result.Fetched? ==> products == ProductsOrEmpty(result.products) && toasts == old(toasts)
      ensures !result.Fetched? ==>
        products == old(products) && toasts == old(toasts) + [Failure("Failed to load products")]
      ensures search == old(search) && status == old(status) && sortBy == old(sortBy)
    {
      FetchProducts(result);
    }

    /**
     * Choosing a status refetches (it is a dependency of the fetch effect), with
     * whatever search is typed; choosing the current status again changes no
     * dependency, so nothing happens.
     */
    method SetStatus(value: string, result: FetchResult)
      modifies this
      ensures status == value && search == old(search) && sortBy == old(sortBy)
      ensures value == old(status) ==>
        products == old(products) && toasts == old(toasts) && requests == old(requests) && loading == old(loading)
      ensures value != old(status) ==> !loading && requests == old(requests) + [FetchParams(value, sortBy, search)]
      ensures value != old(status) && result.Fetched? ==>
        products == ProductsOrEmpty(result.products) && toasts == old(toasts)
      ensures value != old(status) && !result.Fetched? ==>
        products == old(products) && toasts == old(toasts) + [Failure("Failed to load products")]
    {
      if value != status {
        status := value;
        FetchProducts(result);
      }
    }

    /** Choosing a sort column refetches; choosing the current one again does nothing. */
    method SetSortBy(value: string, result: FetchResult)
      modifies this
      ensures sortBy == value && search == old(search) && status == old(status)
      ensures value == old(sortBy) ==>
        products == old(products) && toasts == old(toasts) && requests == old(requests) && loading == old(loading)
      ensures value != old(sortBy) ==> !loading && requests == old(requests) + [FetchParams(status, value, search)]
      ensures value != old(sortBy) && result.Fetched? ==>
        products == ProductsOrEmpty(result.products) && toasts == old(toasts)
      ensures value != old(sortBy) && !result.Fetched? ==>
        products == old(products) && toasts == old(toasts) + [Failure("Failed to load products")]
    {
      if value != sortBy {
        sortBy := value;
        FetchProducts(result);
      }
    }

    /** `handleDelete`: the product leaves the list locally; nothing is sent. */
    method HandleDelete(id: string)
      modifies this
      ensures products == Remove(old(products), id)
      ensures toasts == old(toasts) + [Success("Product deleted successfully")]
      ensures requests == old(requests) && loading == old(loading)
      ensures search == old(search) && status == old(status) && sortBy == old(sortBy)
    {
      products := Remove(products, id);
      toasts := toasts + [Success("Product deleted successfully")];
    }

    function Render(numberText: nat -> string): (r: View)
      reads this
      ensures loading ==> r == Skeleton
      ensures !loading && |products| == 0 ==> r == Empty(EmptyMessage(search, status))
      ensures !loading && |products| > 0 ==> r == Grid(products, CountLabel(|products|, numberText))
    {
      if loading then Skeleton
      else if |products| == 0 then Empty(EmptyMessage(search, status))
      else Grid(products, CountLabel(|products|, numberText))
    }
  }

  /** `data.products || []` */
  function ProductsOrEmpty(ps: Option<seq<Product>>): (r: seq<Product>)
    ensures ps.Some? ==> r == ps.value
    ensures ps.None? ==> r == []
  {
    if ps.Some? then ps.value else []
  }

  /** Deleting the only product empties the page, which then invites creating one when no filter is set. */
  method DeleteLastProduct(p: Product, numberText: nat -> string) returns (before: View, after: View)
    ensures before == Grid([p], CountLabel(1, numberText))
    ensures after == Empty("No products yet. Create your first product to get started.")
  {
    var page := new Page(Fetched(Some([p])));
    before := page.Render(numberText);
    page.HandleDelete(p.id);
    assert Remove([p], p.id) == [] by {
      assert [p][1..] == [];
    }
    after := page.Render(numberText);
  }
}
