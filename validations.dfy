/**
 * The input schemas of the product catalogue: product, category, collection,
 * file-upload and list-filter records. Each schema is given twice:
 *  - as a predicate that states the rule of every field directly, and
 *  - as the ordered list of issues the validation library reports, field by
 *    field in declaration order and check by check in the order the checks
 *    are chained,
 * and a lemma per schema proves that the issue list is empty exactly when
 * the predicate holds. The opaque `url()` and `uuid()` string formats are
 * parameters (`isUrl`, `isUuid`). Only well-typed records are modelled.
 */
module Validations {
  import opened Wrappers
  import Js
  import Text

  // ---------------------------------------------------------------- field rules

  /** The three product statuses. */
  predicate IsProductStatus(s: string) {
    s == "draft" || s == "published" || s == "archived"
  }

  predicate IsSlugChar(c: char) {
    'a' <= c <= 'z' || '0' <= c <= '9' || c == '-'
  }

  /** The pattern `^[a-z0-9-]+$`. */
  predicate MatchesSlugPattern(s: string) {
    |s| >= 1 && forall i :: 0 <= i < |s| ==> IsSlugChar(s[i])
  }

  predicate LengthBetween(s: string, lo: nat, hi: nat) {
    lo <= |s| <= hi
  }

  /** An optional field: absent, or present and satisfying `p`. */
  predicate Optional<T>(o: Option<T>, p: T -> bool) {
    o.None? || p(o.value)
  }

  predicate AllSatisfy(xs: seq<string>, p: string -> bool) {
    forall i :: 0 <= i < |xs| ==> p(xs[i])
  }

  /** A finite number with no fractional part. */
  predicate IsIntNumber(n: Js.Number) {
    n.Num? && Js.IsInteger(n.value)
  }

  // ---------------------------------------------------------------- records

  datatype ProductForm = ProductForm(
    title: string,
    slug: string,
    description: Option<string>,
    shortDescription: Option<string>,
    price: real,
    status: string,
    filePath: Option<string>,
    thumbnailUrl: Option<string>,
    categoryIds: Option<seq<string>>,
    collectionIds: Option<seq<string>>,
    metaTitle: Option<string>,
    metaDescription: Option<string>)

  datatype CategoryForm = CategoryForm(
    name: string,
    slug: string,
    description: Option<string>,
    parentId: Option<string>,
    sortOrder: Option<real>,
    imageUrl: Option<string>)

  datatype CollectionForm = CollectionForm(
    name: string,
    slug: string,
    description: Option<string>,
    imageUrl: Option<string>,
    sortOrder: Option<real>,
    isFeatured: Option<bool>)

  datatype FileUploadForm = FileUploadForm(fileName: string, fileType: string, fileSize: real)

  datatype ProductFilters = ProductFilters(
    status: Option<string>,
    categoryId: Option<string>,
    collectionId: Option<string>,
    search: Option<string>,
    sortBy: Option<string>,
    sortOrder: Option<string>,
    page: Option<Js.Number>,
    pageSize: Option<Js.Number>)

  // ---------------------------------------------------------------- the rules, stated directly

  predicate ValidProductTitle(t: string) { LengthBetween(t, 3, 255) }

  predicate ValidProductSlug(s: string) { LengthBetween(s, 3, 255) && MatchesSlugPattern(s) }

  predicate ValidPrice(p: real) { 0.0 <= p <= 999999.99 }

  predicate ValidProductForm(f: ProductForm, isUrl: string -> bool, isUuid: string -> bool) {
    && ValidProductTitle(f.title)
    && ValidProductSlug(f.slug)
    && Optional(f.description, (d: string) => |d| <= 5000)
    && Optional(f.shortDescription, (d: string) => |d| <= 500)
    && ValidPrice(f.price)
    && IsProductStatus(f.status)
    && Optional(f.thumbnailUrl, isUrl)
    && Optional(f.categoryIds, (ids: seq<string>) => AllSatisfy(ids, isUuid))
    && Optional(f.collectionIds, (ids: seq<string>) => AllSatisfy(ids, isUuid))
    && Optional(f.metaTitle, (t: string) => |t| <= 255)
    && Optional(f.metaDescription, (d: string) => |d| <= 500)
  }

  /** Name and slug rule shared by categories and collections. */
  predicate ValidGroupName(n: string) { LengthBetween(n, 2, 100) }

  predicate ValidGroupSlug(s: string) { LengthBetween(s, 2, 100) && MatchesSlugPattern(s) }

  predicate ValidSortOrder(o: Option<real>) {
    o.None? || (Js.IsInteger(o.value) && o.value >= 0.0)
  }

  predicate ValidCategoryForm(f: CategoryForm, isUrl: string -> bool, isUuid: string -> bool) {
    && ValidGroupName(f.name)
    && ValidGroupSlug(f.slug)
    && Optional(f.description, (d: string) => |d| <= 1000)
    && Optional(f.parentId, isUuid)
    && ValidSortOrder(f.sortOrder)
    && Optional(f.imageUrl, isUrl)
  }

  predicate ValidCollectionForm(f: CollectionForm, isUrl: string -> bool) {
    && ValidGroupName(f.name)
    && ValidGroupSlug(f.slug)
    && Optional(f.description, (d: string) => |d| <= 1000)
    && Optional(f.imageUrl, isUrl)
    && ValidSortOrder(f.sortOrder)
  }

  predicate ValidFileUpload(f: FileUploadForm) {
    |f.fileName| >= 1 && |f.fileType| >= 1 && f.fileSize > 0.0
  }

  predicate IsSortBy(s: string) {
    s == "createdAt" || s == "title" || s == "price" || s == "downloadCount"
  }

  predicate IsSortOrder(s: string) { s == "asc" || s == "desc" }

  predicate ValidPage(n: Js.Number) { IsIntNumber(n) && n.value > 0.0 }

  predicate ValidPageSize(n: Js.Number) { IsIntNumber(n) && 0.0 < n.value <= 100.0 }

  predicate ValidProductFilters(f: ProductFilters, isUuid: string -> bool) {
    && Optional(f.status, IsProductStatus)
    && Optional(f.categoryId, isUuid)
    && Optional(f.collectionId, isUuid)
    && Optional(f.sortBy, IsSortBy)
    && Optional(f.sortOrder, IsSortOrder)
    && Optional(f.page, ValidPage)
    && Optional(f.pageSize, ValidPageSize)
  }

  // ---------------------------------------------------------------- issues, as the library reports them

  /** What the library reports when no custom message is given. */
  datatype IssueCode =
    | TooShort(min: nat)
    | TooLong(max: nat)
    | PatternMismatch
    | InvalidUrl
    | InvalidUuid
    | InvalidEnumValue
    | ExpectedNumber
    | ExpectedInteger
    | TooSmallNumber
    | TooBigNumber

  /** A schema's own message, or the library's default text for a code. */
  datatype Message = Custom(text: string) | Default(code: IssueCode)

  /** One validation failure: the path of the field and its message. */
  datatype Issue = Issue(path: seq<string>, message: Message)

  datatype StringCheck =
    | MinLength(n: nat, msg: Message)
    | MaxLength(n: nat, msg: Message)
    | SlugPattern(msg: Message)
    | UrlFormat(msg: Message)
    | UuidFormat(msg: Message)

  predicate StringPasses(c: StringCheck, s: string, isUrl: string -> bool, isUuid: string -> bool) {
    match c
    case MinLength(n, _) => |s| >= n
    case MaxLength(n, _) => |s| <= n
    case SlugPattern(_) => MatchesSlugPattern(s)
    case UrlFormat(_) => isUrl(s)
    case UuidFormat(_) => isUuid(s)
  }

  /** Every chained check is tried; each failing one adds an issue, in chain order. */
  function StringIssues(path: seq<string>, s: string, checks: seq<StringCheck>,
                        isUrl: string -> bool, isUuid: string -> bool): (r: seq<Issue>)
    ensures |r| <= |checks|
    ensures forall k :: 0 <= k < |r| ==> r[k].path == path
    ensures r == [] <==> forall k :: 0 <= k < |checks| ==> StringPasses(checks[k], s, isUrl, isUuid)
    decreases |checks|
  {
    if |checks| == 0 then []
    else
      var rest := StringIssues(path, s, checks[1..], isUrl, isUuid);
      assert forall k :: 1 <= k < |checks| ==> checks[k] == checks[1..][k - 1];
      if StringPasses(checks[0], s, isUrl, isUuid) then rest
      else [Issue(path, checks[0].msg)] + rest
  }

  function OptionalStringIssues(path: seq<string>, o: Option<string>, checks: seq<StringCheck>,
                                isUrl: string -> bool, isUuid: string -> bool): (r: seq<Issue>)
  {
    if o.None? then [] else StringIssues(path, o.value, checks, isUrl, isUuid)
  }

  /** An array of strings: each element is checked, its index joining the path. */
  function ElementIssues(path: seq<string>, xs: seq<string>, from: nat, checks: seq<StringCheck>,
                         isUrl: string -> bool, isUuid: string -> bool): (r: seq<Issue>)
    requires from <= |xs|
    ensures r == [] <==> forall i :: from <= i < |xs| ==>
      forall k :: 0 <= k < |checks| ==> StringPasses(checks[k], xs[i], isUrl, isUuid)
    decreases |xs| - from
  {
    if from == |xs| then []
    else
      StringIssues(path + [Text.NatToString(from)], xs[from], checks, isUrl, isUuid)
      + ElementIssues(path, xs, from + 1, checks, isUrl, isUuid)
  }

  datatype NumberCheck =
    | AtLeast(bound: real, msg: Message)
    | AtMost(bound: real, msg: Message)
    | Positive(msg: Message)
    | Int(msg: Message)

  predicate NumberPasses(c: NumberCheck, x: real) {
    match c
    case AtLeast(b, _) => x >= b
    case AtMost(b, _) => x <= b
    case Positive(_) => x > 0.0
    case Int(_) => Js.IsInteger(x)
  }

  /** NaN fails the type check and nothing else is tried; otherwise every check is tried. */
  function NumberIssues(path: seq<string>, n: Js.Number, checks: seq<NumberCheck>): (r: seq<Issue>)
    ensures r == [] <==> n.Num? && forall k :: 0 <= k < |checks| ==> NumberPasses(checks[k], n.value)
    decreases |checks|
  {
    if n.NaN? then [Issue(path, Default(ExpectedNumber))]
    else if |checks| == 0 then []
    else
      var rest := NumberIssues(path, n, checks[1..]);
      assert forall k :: 1 <= k < |checks| ==> checks[k] == checks[1..][k - 1];
      if NumberPasses(checks[0], n.value) then rest
      else [Issue(path, checks[0].msg)] + rest
  }

  function OptionalNumberIssues(path: seq<string>, o: Option<Js.Number>, checks: seq<NumberCheck>): (r: seq<Issue>) {
    if o.None? then [] else NumberIssues(path, o.value, checks)
  }

  function EnumIssues(path: seq<string>, s: string, member: string -> bool): (r: seq<Issue>) {
    if member(s) then [] else [Issue(path, Default(InvalidEnumValue))]
  }

  function OptionalEnumIssues(path: seq<string>, o: Option<string>, member: string -> bool): (r: seq<Issue>) {
    if o.None? then [] else EnumIssues(path, o.value, member)
  }

  // ---------------------------------------------------------------- the schemas as check chains

  const SlugMessage := Custom("Slug must contain only lowercase letters, numbers, and hyphens")

  function TitleIssues(title: string): (r: seq<Issue>)
    ensures r == [] <==> ValidProductTitle(title)
  {
    var never := (s: string) => true;
    StringIssues(["title"], title,
      [MinLength(3, Custom("Title must be at least 3 characters")),
       MaxLength(255, Custom("Title must be less than 255 characters"))], never, never)
  }

  function ProductSlugIssues(slug: string): (r: seq<Issue>)
    ensures r == [] <==> ValidProductSlug(slug)
  {
    var never := (s: string) => true;
    var checks := [MinLength(3, Custom("Slug must be at least 3 characters")),
                   MaxLength(255, Custom("Slug must be less than 255 characters")),
                   SlugPattern(SlugMessage)];
    ThreeStringChecks(["slug"], slug, checks[0], checks[1], checks[2], never, never);
    StringIssues(["slug"], slug, checks, never, never)
  }

  function PriceIssues(price: real): (r: seq<Issue>)
    ensures r == [] <==> ValidPrice(price)
  {
    NumberIssues(["price"], Js.Num(price),
      [AtLeast(0.0, Custom("Price must be positive")), AtMost(999999.99, Custom("Price is too high"))])
  }

  function MaxLengthIssues(path: seq<string>, o: Option<string>, n: nat, msg: Message): (r: seq<Issue>)
    ensures r == [] <==> o.None? || |o.value| <= n
  {
    var never := (s: string) => true;
    OptionalStringIssues(path, o, [MaxLength(n, msg)], never, never)
  }

  function FormatIssues(path: seq<string>, o: Option<string>, format: string -> bool, msg: Message): (r: seq<Issue>)
    ensures r == [] <==> o.None? || format(o.value)
  {
    OptionalStringIssues(path, o, [UrlFormat(msg)], format, format)
  }

  function IdListIssues(path: seq<string>, o: Option<seq<string>>, isUuid: string -> bool): (r: seq<Issue>)
    ensures r == [] <==> o.None? || AllSatisfy(o.value, isUuid)
  {
    if o.None? then [] else ElementIssues(path, o.value, 0, [UuidFormat(Default(InvalidUuid))], isUuid, isUuid)
  }

  function SortOrderIssues(o: Option<real>): (r: seq<Issue>)
    ensures r == [] <==> ValidSortOrder(o)
  {
    if o.None? then []
    else NumberIssues(["sortOrder"], Js.Num(o.value), [Int(Default(ExpectedInteger)), AtLeast(0.0, Default(TooSmallNumber))])
  }

  /** The issues of the product form, field by field in declaration order. */
  function ProductFormIssues(f: ProductForm, isUrl: string -> bool, isUuid: string -> bool): (r: seq<Issue>)
    ensures r == [] <==> ValidProductForm(f, isUrl, isUuid)
  {
    TitleIssues(f.title)
    + ProductSlugIssues(f.slug)
    + MaxLengthIssues(["description"], f.description, 5000, Custom("Description must be less than 5000 characters"))
    + MaxLengthIssues(["shortDescription"], f.shortDescription, 500, Custom("Short description must be less than 500 characters"))
    + PriceIssues(f.price)
    + EnumIssues(["status"], f.status, IsProductStatus)
    + FormatIssues(["thumbnailUrl"], f.thumbnailUrl, isUrl, Custom("Invalid thumbnail URL"))
    + IdListIssues(["categoryIds"], f.categoryIds, isUuid)
    + IdListIssues(["collectionIds"], f.collectionIds, isUuid)
    + MaxLengthIssues(["metaTitle"], f.metaTitle, 255, Default(TooLong(255)))
    + MaxLengthIssues(["metaDescription"], f.metaDescription, 500, Default(TooLong(500)))
  }

  function GroupNameIssues(name: string): (r: seq<Issue>)
    ensures r == [] <==> ValidGroupName(name)
  {
    var never := (s: string) => true;
    StringIssues(["name"], name,
      [MinLength(2, Custom("Name must be at least 2 characters")),
       MaxLength(100, Custom("Name must be less than 100 characters"))], never, never)
  }

  function GroupSlugIssues(slug: string): (r: seq<Issue>)
    ensures r == [] <==> ValidGroupSlug(slug)
  {
    var never := (s: string) => true;
    var checks := [MinLength(2, Custom("Slug must be at least 2 characters")),
                   MaxLength(100, Custom("Slug must be less than 100 characters")),
                   SlugPattern(SlugMessage)];
    ThreeStringChecks(["slug"], slug, checks[0], checks[1], checks[2], never, never);
    StringIssues(["slug"], slug, checks, never, never)
  }

  function CategoryFormIssues(f: CategoryForm, isUrl: string -> bool, isUuid: string -> bool): (r: seq<Issue>)
    ensures r == [] <==> ValidCategoryForm(f, isUrl, isUuid)
  {
    GroupNameIssues(f.name)
    + GroupSlugIssues(f.slug)
    + MaxLengthIssues(["description"], f.description, 1000, Default(TooLong(1000)))
    + FormatIssues(["parentId"], f.parentId, isUuid, Default(InvalidUuid))
    + SortOrderIssues(f.sortOrder)
    + FormatIssues(["imageUrl"], f.imageUrl, isUrl, Custom("Invalid image URL"))
  }

  function CollectionFormIssues(f: CollectionForm, isUrl: string -> bool): (r: seq<Issue>)
    ensures r == [] <==> ValidCollectionForm(f, isUrl)
  {
    GroupNameIssues(f.name)
    + GroupSlugIssues(f.slug)
    + MaxLengthIssues(["description"], f.description, 1000, Default(TooLong(1000)))
    + FormatIssues(["imageUrl"], f.imageUrl, isUrl, Custom("Invalid image URL"))
    + SortOrderIssues(f.sortOrder)
  }

  function FileUploadIssues(f: FileUploadForm): (r: seq<Issue>)
    ensures r == [] <==> ValidFileUpload(f)
  {
    var never := (s: string) => true;
    StringIssues(["fileName"], f.fileName, [MinLength(1, Custom("File name is required"))], never, never)
    + StringIssues(["fileType"], f.fileType, [MinLength(1, Custom("File type is required"))], never, never)
    + NumberIssues(["fileSize"], Js.Num(f.fileSize), [Positive(Custom("File size must be positive"))])
  }

  function ProductFiltersIssues(f: ProductFilters, isUuid: string -> bool): (r: seq<Issue>)
    ensures r == [] <==> ValidProductFilters(f, isUuid)
  {
    var anyUrl := (s: string) => true;
    OptionalEnumIssues(["status"], f.status, IsProductStatus)
    + OptionalStringIssues(["categoryId"], f.categoryId, [UuidFormat(Default(InvalidUuid))], anyUrl, isUuid)
    + OptionalStringIssues(["collectionId"], f.collectionId, [UuidFormat(Default(InvalidUuid))], anyUrl, isUuid)
    + OptionalEnumIssues(["sortBy"], f.sortBy, IsSortBy)
    + OptionalEnumIssues(["sortOrder"], f.sortOrder, IsSortOrder)
    + OptionalNumberIssues(["page"], f.page, [Int(Default(ExpectedInteger)), Positive(Default(TooSmallNumber))])
    + OptionalNumberIssues(["pageSize"], f.pageSize,
        [Int(Default(ExpectedInteger)), Positive(Default(TooSmallNumber)), AtMost(100.0, Default(TooBigNumber))])
  }

  // ---------------------------------------------------------------- issue lists agree with the rules

  lemma ThreeStringChecks(path: seq<string>, s: string, a: StringCheck, b: StringCheck, c: StringCheck,
                          isUrl: string -> bool, isUuid: string -> bool)
    ensures StringIssues(path, s, [a, b, c], isUrl, isUuid) == [] <==>
            StringPasses(a, s, isUrl, isUuid) && StringPasses(b, s, isUrl, isUuid) && StringPasses(c, s, isUrl, isUuid)
  {
    var cs := [a, b, c];
    if StringPasses(a, s, isUrl, isUuid) && StringPasses(b, s, isUrl, isUuid) && StringPasses(c, s, isUrl, isUuid) {
      forall k | 0 <= k < 3 ensures StringPasses(cs[k], s, isUrl, isUuid) {
        if k == 0 {} else if k == 1 {} else {}
      }
    }
    if StringIssues(path, s, cs, isUrl, isUuid) == [] {
      assert StringPasses(cs[0], s, isUrl, isUuid);
      assert StringPasses(cs[1], s, isUrl, isUuid);
      assert StringPasses(cs[2], s, isUrl, isUuid);
    }
  }

}
