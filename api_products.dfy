/**
 * The products collection endpoint: GET lists the caller's products with
 * filters taken from the query string, POST creates a product from the JSON
 * body. The session, the body as parsed and the data-access calls are
 * parameters; each handler is a function from them to the response.
 */
module ApiProducts {
  import opened Wrappers
  import Js
  import Text
  import UrlParams
  import Validations
  import ProductQueries

  /** The signed-in user; `id` may be missing. */
  datatype User = User(id: Option<string>)

  const DefaultVendor := "default-vendor"

  /** `session.user.id || 'default-vendor'` */
  function VendorId(user: User): (r: string)
    ensures Js.Truthy(user.id) ==> r == user.id.value
    ensures !Js.Truthy(user.id) ==> r == DefaultVendor
  {
    Js.Or(user.id, DefaultVendor)
  }

  // ------------------------------------------------------------ GET

  /** The filters as the handler reads them from the query string. */
  function ReadFilters(query: seq<UrlParams.Param>): (f: Validations.ProductFilters)
    ensures f.status == Js.OrUndefined(UrlParams.Get(query, "status"))
    ensures f.search == Js.OrUndefined(UrlParams.Get(query, "search"))
    ensures f.sortBy == Some(Js.Or(UrlParams.Get(query, "sortBy"), "createdAt"))
    ensures f.sortOrder == Some(Js.Or(UrlParams.Get(query, "sortOrder"), "desc"))
    ensures f.page == Some(Js.ParseInt(Js.Or(UrlParams.Get(query, "page"), "1")))
    ensures f.pageSize == Some(Js.ParseInt(Js.Or(UrlParams.Get(query, "pageSize"), "20")))
  {
    Validations.ProductFilters(
      status := Js.OrUndefined(UrlParams.Get(query, "status")),
      categoryId := Js.OrUndefined(UrlParams.Get(query, "categoryId")),
      collectionId := Js.OrUndefined(UrlParams.Get(query, "collectionId")),
      search := Js.OrUndefined(UrlParams.Get(query, "search")),
      sortBy := Some(Js.Or(UrlParams.Get(query, "sortBy"), "createdAt")),
      sortOrder := Some(Js.Or(UrlParams.Get(query, "sortOrder"), "desc")),
      page := Some(Js.ParseInt(Js.Or(UrlParams.Get(query, "page"), "1"))),
      pageSize := Some(Js.ParseInt(Js.Or(UrlParams.Get(query, "pageSize"), "20"))))
  }

  /** The whole number a validated page number holds. */
  function WholeNumber(n: Option<Js.Number>): (r: Option<int>) {
    if n.Some? && n.value.Num? then Some(n.value.value.Floor) else None
  }

  /** The validated filters as the listing query builder receives them. */
  function QueryFilters(f: Validations.ProductFilters): (r: ProductQueries.Filters) {
    ProductQueries.Filters(f.status, f.categoryId, f.collectionId, f.search, f.sortBy, f.sortOrder,
      WholeNumber(f.page), WholeNumber(f.pageSize))
  }

  /** `Math.ceil(total / pageSize)` for a positive page size. */
  function PageCount(total: nat, pageSize: nat): (r: nat)
    requires pageSize > 0
    ensures r * pageSize >= total
    ensures r > 0 ==> (r - 1) * pageSize < total
  {
    (total + pageSize - 1) / pageSize
  }

  /** What the data layer returned for a listing: the rows (by id) and the total count. */
  datatype Listing = Listing(products: seq<string>, total: nat)
  datatype DbResult<T> = Done(value: T) | Failed(message: string)

  datatype GetResponse =
    | GetUnauthorized
    | InvalidFilters(details: seq<Validations.Issue>)
    | Listed(products: seq<string>, total: nat, page: int, pageSize: int, totalPages: nat)
    | FetchFailed

  function GetStatus(r: GetResponse): (res: int) {
    match r
    case GetUnauthorized => 401
    case InvalidFilters(_) => 400
    case Listed(_, _, _, _, _) => 200
    case FetchFailed => 500
  }

  /** GET /api/products */
  function Get(session: Option<User>, query: seq<UrlParams.Param>, isUuid: string -> bool,
               getProducts: (string, ProductQueries.Filters) -> DbResult<Listing>): (r: GetResponse)
    ensures session.None? <==> r == GetUnauthorized
    ensures r.InvalidFilters? <==> session.Some? && !Validations.ValidProductFilters(ReadFilters(query), isUuid)
    ensures r.InvalidFilters? ==> r.details == Validations.ProductFiltersIssues(ReadFilters(query), isUuid)
    ensures r.Listed? ==> (r.pageSize > 0 && r.page > 0
      && r.totalPages * r.pageSize >= r.total && (r.totalPages > 0 ==> (r.totalPages - 1) * r.pageSize < r.total))
    ensures r.Listed? || r.FetchFailed? ==>
      getProducts(VendorId(session.value), QueryFilters(ReadFilters(query))).Done? == r.Listed?
    ensures r.Listed? ==>
      var listing := getProducts(VendorId(session.value), QueryFilters(ReadFilters(query))).value;
      && r.products == listing.products && r.total == listing.total
      && ReadFilters(query).page == Some(Js.Num(r.page as real))
      && ReadFilters(query).pageSize == Some(Js.Num(r.pageSize as real))
      && r.totalPages == PageCount(r.total, r.pageSize)
  {
    if session.None? then GetUnauthorized
    else
      var filters := ReadFilters(query);
      var issues := Validations.ProductFiltersIssues(filters, isUuid);
      if issues != [] then InvalidFilters(issues)
      else
        match getProducts(VendorId(session.value), QueryFilters(filters))
        case Failed(_) => FetchFailed
        case Done(listing) =>
          var page := filters.page.value.value.Floor;
          var size := filters.pageSize.value.value.Floor;
          Listed(listing.products, listing.total, page, size, PageCount(listing.total, size))
  }

  /** Without a session, neither the query string nor the data layer affects the answer. */
  lemma UnauthorizedFirst(query1: seq<UrlParams.Param>, query2: seq<UrlParams.Param>, isUuid: string -> bool,
                          db1: (string, ProductQueries.Filters) -> DbResult<Listing>,
                          db2: (string, ProductQueries.Filters) -> DbResult<Listing>)
    ensures Get(None, query1, isUuid, db1) == Get(None, query2, isUuid, db2) == GetUnauthorized
  {
  }

  /** Invalid filters are answered without consulting the data layer. */
  lemma InvalidFiltersNeverQuery(user: User, query: seq<UrlParams.Param>, isUuid: string -> bool,
                                 db1: (string, ProductQueries.Filters) -> DbResult<Listing>,
                                 db2: (string, ProductQueries.Filters) -> DbResult<Listing>)
    requires !Validations.ValidProductFilters(ReadFilters(query), isUuid)
    ensures Get(Some(user), query, isUuid, db1) == Get(Some(user), query, isUuid, db2)
    ensures GetStatus(Get(Some(user), query, isUuid, db1)) == 400
  {
  }

  /** An empty query string gives the defaults: newest first, page 1 of 20. */
  lemma EmptyQueryDefaults()
    ensures var f := ReadFilters([]);
      && f.status.None? && f.categoryId.None? && f.collectionId.None? && f.search.None?
      && f.sortBy == Some("createdAt") && f.sortOrder == Some("desc")
      && f.page == Some(Js.Num(1.0)) && f.pageSize == Some(Js.Num(20.0))
  {
    assert Text.NatToString(1) == "1";
    Js.ParseIntOfNatToString(1);
    assert Text.NatToString(20) == "20" by {
      assert Text.NatToString(2) == "2";
    }
    Js.ParseIntOfNatToString(20);
  }

  /** A page number that is not numeric parses to NaN and the request is refused. */
  lemma NonNumericPageRefused(user: User, query: seq<UrlParams.Param>, isUuid: string -> bool,
                              db: (string, ProductQueries.Filters) -> DbResult<Listing>)
    requires UrlParams.Get(query, "page").Some? && Js.Truthy(UrlParams.Get(query, "page"))
    requires Js.ParseInt(UrlParams.Get(query, "page").value) == Js.NaN
    ensures GetStatus(Get(Some(user), query, isUuid, db)) == 400
  {
  }

  // ------------------------------------------------------------ POST

  /** The request body: JSON that does not parse, or the object it holds. */
  datatype PostBody = Unparseable(message: string) | Json(form: Validations.ProductForm)

  datatype PostResponse =
    | PostUnauthorized
    | InvalidInput(details: seq<Validations.Issue>, message: string)
    | Created(product: string)
    | DuplicateSlug
    | CreateFailed(message: string)

  function PostStatus(r: PostResponse): (res: int) {
    match r
    case PostUnauthorized => 401
    case InvalidInput(_, _) => 400
    case Created(_) => 201
    case DuplicateSlug => 409
    case CreateFailed(_) => 500
  }

  /** The text of an issue's message; the library's default texts are a parameter. */
  function MessageText(m: Validations.Message, defaultText: Validations.IssueCode -> string): (r: string) {
    match m
    case Custom(t) => t
    case Default(c) => defaultText(c)
  }

  /** `${e.path.join('.')}: ${e.message}` */
  function IssueLine(i: Validations.Issue, defaultText: Validations.IssueCode -> string): (r: string) {
    Text.Join(i.path, ".") + ": " + MessageText(i.message, defaultText)
  }

  /** The issue lines joined by ", ". */
  function IssueSummary(issues: seq<Validations.Issue>, defaultText: Validations.IssueCode -> string): (r: string)
    ensures |issues| > 0 ==> |r| >= 2
    ensures |issues| == 1 ==> r == IssueLine(issues[0], defaultText)
    decreases |issues|
  {
    if |issues| == 0 then ""
    else if |issues| == 1 then IssueLine(issues[0], defaultText)
    else IssueLine(issues[0], defaultText) + ", " + IssueSummary(issues[1..], defaultText)
  }

  /** The catch block: a message mentioning 'unique' is a duplicate slug, anything else a failure. */
  function CatchError(message: string): (r: PostResponse)
    ensures r == DuplicateSlug <==> Text.Contains(message, "unique")
    ensures r != DuplicateSlug ==> r == CreateFailed(message)
  {
    if Text.Contains(message, "unique") then DuplicateSlug else CreateFailed(message)
  }

  /** POST /api/products */
  function Post(session: Option<User>, body: PostBody, isUrl: string -> bool, isUuid: string -> bool,
                defaultText: Validations.IssueCode -> string,
                createProduct: (string, Validations.ProductForm) -> DbResult<string>): (r: PostResponse)
    ensures session.None? <==> r == PostUnauthorized
    ensures r.Created? <==> (session.Some? && body.Json? && Validations.ValidProductForm(body.form, isUrl, isUuid)
      && createProduct(VendorId(session.value), body.form).Done?)
    ensures r.InvalidInput? <==> session.Some? && body.Json? && !Validations.ValidProductForm(body.form, isUrl, isUuid)
    ensures r.InvalidInput? ==> (r.details == Validations.ProductFormIssues(body.form, isUrl, isUuid)
      && r.message == IssueSummary(r.details, defaultText))
    ensures session.Some? && body.Unparseable? ==> r == CatchError(body.message)
    ensures r.Created? ==> r.product == createProduct(VendorId(session.value), body.form).value
    ensures session.Some? && body.Json? && Validations.ValidProductForm(body.form, isUrl, isUuid)
      && createProduct(VendorId(session.value), body.form).Failed?
      ==> r == CatchError(createProduct(VendorId(session.value), body.form).message)
  {
    if session.None? then PostUnauthorized
    else
      match body
      case Unparseable(m) => CatchError(m)
      case Json(form) =>
        var issues := Validations.ProductFormIssues(form, isUrl, isUuid);
        if issues != [] then InvalidInput(issues, IssueSummary(issues, defaultText))
        else
          match createProduct(VendorId(session.value), form)
          case Done(id) => Created(id)
          case Failed(m) => CatchError(m)
  }

  lemma ShortTitleIssues(title: string)
    requires |title| < 3
    ensures Validations.TitleIssues(title)
      == [Validations.Issue(["title"], Validations.Custom("Title must be at least 3 characters"))]
  {
    var never := (s: string) => true;
    var checks := [Validations.MinLength(3, Validations.Custom("Title must be at least 3 characters")),
                   Validations.MaxLength(255, Validations.Custom("Title must be less than 255 characters"))];
    assert Validations.StringIssues(["title"], title, checks[1..], never, never) == [];
  }

  /** The summary of a too-short title. */
  lemma ShortTitleSummary(title: string, defaultText: Validations.IssueCode -> string)
    requires |title| < 3
    ensures IssueSummary(Validations.TitleIssues(title), defaultText) == "title: Title must be at least 3 characters"
  {
    ShortTitleIssues(title);
    assert Text.Join(["title"], ".") == "title";
  }

  /** A refused title is reported as "title: " followed by the schema's message. */
  lemma ShortTitleMessage(user: User, form: Validations.ProductForm, isUrl: string -> bool, isUuid: string -> bool,
                          defaultText: Validations.IssueCode -> string,
                          createProduct: (string, Validations.ProductForm) -> DbResult<string>)
    requires |form.title| < 3
    requires Validations.ProductFormIssues(form, isUrl, isUuid) == Validations.TitleIssues(form.title)
    ensures Post(Some(user), Json(form), isUrl, isUuid, defaultText, createProduct)
      == InvalidInput(Validations.TitleIssues(form.title), "title: Title must be at least 3 characters")
  {
    ShortTitleSummary(form.title, defaultText);
  }
}
