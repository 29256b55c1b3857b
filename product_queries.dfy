/**
 * The query builders of the product data-access layer (src/lib/products.ts).
 * The SQL text is modelled as structured clauses that carry the number of
 * their `$n` placeholder; the parameter array is a sequence of values.
 * Running the queries is not modelled.
 */
module ProductQueries {
  import opened Wrappers
  import Js
  import Text

  /** A bound SQL parameter. */
  datatype Value = Str(s: string) | Num(n: real)

  /** The listing filters; every field may be undefined. */
  datatype Filters = Filters(
    status: Option<string>,
    categoryId: Option<string>,
    collectionId: Option<string>,
    search: Option<string>,
    sortBy: Option<string>,
    sortOrder: Option<string>,
    page: Option<int>,
    pageSize: Option<int>)

  /**
   * The kinds of WHERE condition of the listing query. `TitleOrDescriptionLike`
   * is `p.title ILIKE $n OR p.description ILIKE $n`: one placeholder, used twice.
   */
  datatype Kind = VendorIs | StatusIs | TitleOrDescriptionLike | InCategory | InCollection

  /** A WHERE condition and the number of the `$n` placeholder it uses. */
  datatype Condition = Condition(kind: Kind, param: nat)

  datatype SortColumn = CreatedAt | Title | Price | DownloadCount

  /** The listing query: its conditions, ORDER BY, and the LIMIT and OFFSET placeholders. */
  datatype ListQuery = ListQuery(
    conditions: seq<Condition>,
    sortColumn: SortColumn,
    direction: string,
    limitParam: nat,
    offsetParam: nat)

  const DefaultSortBy := "createdAt"
  const DefaultSortOrder := "desc"
  const DefaultPage := 1
  const DefaultPageSize := 20

  /** Position of a condition kind in the order the builder tests the filters. */
  function Rank(k: Kind): (r: nat) {
    match k
    case VendorIs => 0
    case StatusIs => 1
    case TitleOrDescriptionLike => 2
    case InCategory => 3
    case InCollection => 4
  }

  /** The value a condition of the given kind compares against. */
  function ConditionValue(k: Kind, vendorId: string, f: Filters): (r: Value) {
    match k
    case VendorIs => Str(vendorId)
    case StatusIs => Str(f.status.GetOr(""))
    case TitleOrDescriptionLike => Str("%" + f.search.GetOr("") + "%")
    case InCategory => Str(f.categoryId.GetOr(""))
    case InCollection => Str(f.collectionId.GetOr(""))
  }

  /** A filter slot with the value it binds, present only when the filter is truthy. */
  function Slot(k: Kind, o: Option<string>, v: Value): (Kind, Option<Value>) {
    (k, if Js.Truthy(o) then Some(v) else None)
  }

  /** The four optional filters in the order the builder tests them. */
  function FilterSlots(f: Filters): (r: seq<(Kind, Option<Value>)>) {
    [ Slot(StatusIs, f.status, Str(f.status.GetOr(""))),
      Slot(TitleOrDescriptionLike, f.search, Str("%" + f.search.GetOr("") + "%")),
      Slot(InCategory, f.categoryId, Str(f.categoryId.GetOr(""))),
      Slot(InCollection, f.collectionId, Str(f.collectionId.GetOr(""))) ]
  }

  /** The slots that hold a value, in order. */
  function Active<K>(slots: seq<(K, Option<Value>)>): (r: seq<(K, Value)>) {
    if |slots| == 0 then []
    else
      var last := slots[|slots| - 1];
      Active(slots[..|slots| - 1]) + (if last.1.Some? then [(last.0, last.1.value)] else [])
  }

  /** The value a single slot contributes to the active list. */
  function Part<K>(x: (K, Option<Value>)): (r: seq<(K, Value)>) {
    if x.1.Some? then [(x.0, x.1.value)] else []
  }

  lemma ActiveStep<K>(slots: seq<(K, Option<Value>)>, i: nat)
    requires i < |slots|
    ensures Active(slots[..i + 1]) == Active(slots[..i]) + Part(slots[i])
  {
    assert slots[..i + 1][..i] == slots[..i];
  }

  /** A kind appears among the active slots iff some slot of that kind holds a value. */
  lemma ActiveHas<K>(slots: seq<(K, Option<Value>)>, k: K)
    ensures (exists i :: 0 <= i < |Active(slots)| && Active(slots)[i].0 == k)
        <==> (exists j :: 0 <= j < |slots| && slots[j].0 == k && slots[j].1.Some?)
  {
    if exists j :: 0 <= j < |slots| && slots[j].0 == k && slots[j].1.Some? {
      var j :| 0 <= j < |slots| && slots[j].0 == k && slots[j].1.Some?;
      ActiveOfSlot(slots, j);
    }
    if exists i :: 0 <= i < |Active(slots)| && Active(slots)[i].0 == k {
      var i :| 0 <= i < |Active(slots)| && Active(slots)[i].0 == k;
      SlotOfActive(slots, i);
    }
  }

  /** Helper: a slot holding a value shows up, with its kind, among the active slots. */
  lemma {:induction false} ActiveOfSlot<K>(slots: seq<(K, Option<Value>)>, j: nat)
    requires j < |slots| && slots[j].1.Some?
    ensures exists i :: 0 <= i < |Active(slots)| && Active(slots)[i].0 == slots[j].0
    decreases |slots|
  {
    var init := slots[..|slots| - 1];
    var a := Active(slots);
    assert a == Active(init) + Part(slots[|slots| - 1]);
    if j < |slots| - 1 {
      assert init[j] == slots[j];
      ActiveOfSlot(init, j);
      var i :| 0 <= i < |Active(init)| && Active(init)[i].0 == init[j].0;
      assert a[i] == Active(init)[i];
    } else {
      assert a[|a| - 1].0 == slots[j].0;
    }
  }

  /** Helper: every active entry comes from a slot of the same kind that holds a value. */
  lemma {:induction false} SlotOfActive<K>(slots: seq<(K, Option<Value>)>, i: nat)
    requires i < |Active(slots)|
    ensures exists j :: 0 <= j < |slots| && slots[j].0 == Active(slots)[i].0 && slots[j].1.Some?
    decreases |slots|
  {
    var init := slots[..|slots| - 1];
    var a := Active(slots);
    assert a == Active(init) + Part(slots[|slots| - 1]);
    if i < |Active(init)| {
      assert a[i] == Active(init)[i];
      SlotOfActive(init, i);
      var j :| 0 <= j < |init| && init[j].0 == Active(init)[i].0 && init[j].1.Some?;
      assert slots[j] == init[j];
    } else {
      assert slots[|slots| - 1].0 == a[i].0 && slots[|slots| - 1].1.Some?;
    }
  }

  /** Number of filters (status, search, categoryId, collectionId) that are truthy. */
  function ActiveFilterCount(f: Filters): (r: nat) {
    (if Js.Truthy(f.status) then 1 else 0) + (if Js.Truthy(f.search) then 1 else 0)
      + (if Js.Truthy(f.categoryId) then 1 else 0) + (if Js.Truthy(f.collectionId) then 1 else 0)
  }

  /** Every condition's placeholder names a parameter holding the value it compares against. */
  predicate Binds(conds: seq<Condition>, params: seq<Value>, vendorId: string, f: Filters) {
    forall i :: 0 <= i < |conds| ==>
      1 <= conds[i].param <= |params| && params[conds[i].param - 1] == ConditionValue(conds[i].kind, vendorId, f)
  }

  /** The vendor condition and parameter, then one of each per active filter, placeholders numbered in order. */
  predicate Layout(conds: seq<Condition>, params: seq<Value>, vendorId: string, active: seq<(Kind, Value)>) {
    |conds| == |params| == 1 + |active|
    && conds[0] == Condition(VendorIs, 1) && params[0] == Str(vendorId)
    && forall k :: 0 <= k < |active| ==>
         conds[k + 1] == Condition(active[k].0, k + 2) && params[k + 1] == active[k].1
  }

  /** The ORDER BY column: createdAt, title and price have their own column, anything else sorts by downloads. */
  function SortColumnOf(sortBy: string): (c: SortColumn)
    ensures c == CreatedAt <==> sortBy == "createdAt"
    ensures c == Title <==> sortBy == "title"
    ensures c == Price <==> sortBy == "price"
    ensures c == DownloadCount <==> sortBy != "createdAt" && sortBy != "title" && sortBy != "price"
  {
    if sortBy == "createdAt" then CreatedAt
    else if sortBy == "title" then Title
    else if sortBy == "price" then Price
    else DownloadCount
  }

  /**
   * getProducts, filter part: the vendor condition at $1, then for each truthy
   * filter one condition at the running placeholder counter and one parameter.
   */
  method ApplyFilters(vendorId: string, f: Filters) returns (conds: seq<Condition>, params: seq<Value>)
    ensures Layout(conds, params, vendorId, Active(FilterSlots(f)))
  {
    var slots := FilterSlots(f);
    conds := [Condition(VendorIs, 1)];
    params := [Str(vendorId)];
    var paramIndex := 2;
    for i := 0 to |slots|
      invariant paramIndex == |conds| + 1
      invariant Layout(conds, params, vendorId, Active(slots[..i]))
    {
      assert slots[..i + 1][..i] == slots[..i];
      var (kind, value) := slots[i];
      if value.Some? {
        conds := conds + [Condition(kind, paramIndex)];
        params := params + [value.value];
        paramIndex := paramIndex + 1;
      }
    }
    assert slots[..|slots|] == slots;
  }

  /**
   * getProducts: the listing query with its parameters, and the count query,
   * which uses the same conditions over exactly the filter parameters.
   */
  method BuildListQuery(vendorId: string, f: Filters)
    returns (query: ListQuery, params: seq<Value>, countConditions: seq<Condition>, countParams: seq<Value>)
    ensures Layout(countConditions, countParams, vendorId, Active(FilterSlots(f)))
    ensures query.conditions == countConditions
    ensures |params| == |countParams| + 2 && params[..|countParams|] == countParams
    ensures Binds(query.conditions, params, vendorId, f)
    ensures query.sortColumn == SortColumnOf(f.sortBy.GetOr(DefaultSortBy))
    ensures query.direction == Text.ToUpper(f.sortOrder.GetOr(DefaultSortOrder))
    ensures query.limitParam == |params| - 1 && query.offsetParam == |params|
    ensures var page := f.page.GetOr(DefaultPage);
            var size := f.pageSize.GetOr(DefaultPageSize);
            params[|params| - 2] == Num(size as real) && params[|params| - 1] == Num(((page - 1) * size) as real)
  {
    var conds;
    conds, params := ApplyFilters(vendorId, f);
    var paramIndex := |params| + 1;
    countConditions, countParams := conds, params;
    LayoutBinds(conds, params, vendorId, f);

    var sortBy := f.sortBy.GetOr(DefaultSortBy);
    var sortOrder := f.sortOrder.GetOr(DefaultSortOrder);
    var page := f.page.GetOr(DefaultPage);
    var pageSize := f.pageSize.GetOr(DefaultPageSize);
    var offset := (page - 1) * pageSize;
    query := ListQuery(conds, SortColumnOf(sortBy), Text.ToUpper(sortOrder), paramIndex, paramIndex + 1);
    BindsExtend(conds, params, [Num(pageSize as real), Num(offset as real)], vendorId, f);
    params := params + [Num(pageSize as real), Num(offset as real)];
    assert params[..|conds|] == countParams;
  }

  /** Each active slot holds the value its kind compares against. */
  lemma {:induction false} ActiveValues(slots: seq<(Kind, Option<Value>)>, f: Filters, vendorId: string)
    requires forall i :: 0 <= i < |slots| && slots[i].1.Some? ==> slots[i].1.value == ConditionValue(slots[i].0, vendorId, f)
    ensures forall k :: 0 <= k < |Active(slots)| ==> Active(slots)[k].1 == ConditionValue(Active(slots)[k].0, vendorId, f)
    decreases |slots|
  {
    if |slots| > 0 {
      ActiveValues(slots[..|slots| - 1], f, vendorId);
    }
  }

  /** The layout the builder produces binds every placeholder to the value its condition compares against. */
  lemma LayoutBinds(conds: seq<Condition>, params: seq<Value>, vendorId: string, f: Filters)
    requires Layout(conds, params, vendorId, Active(FilterSlots(f)))
    ensures Binds(conds, params, vendorId, f)
  {
    var slots := FilterSlots(f);
    ActiveValues(slots, f, vendorId);
    var active := Active(slots);
    forall i | 0 <= i < |conds|
      ensures 1 <= conds[i].param <= |params| && params[conds[i].param - 1] == ConditionValue(conds[i].kind, vendorId, f)
    {
      if i > 0 {
        assert conds[i] == Condition(active[i - 1].0, i + 1);
      }
    }
  }

  /** Parameters appended after the filter values leave every condition's binding intact. */
  lemma BindsExtend(conds: seq<Condition>, params: seq<Value>, extra: seq<Value>, vendorId: string, f: Filters)
    requires Binds(conds, params, vendorId, f)
    ensures Binds(conds, params + extra, vendorId, f)
  {
    forall i | 0 <= i < |conds|
      ensures (params + extra)[conds[i].param - 1] == params[conds[i].param - 1]
    {
    }
  }

  /** Which filter a condition kind comes from. */
  function FilterFor(k: Kind, f: Filters): (r: Option<string>) {
    match k
    case VendorIs => None
    case StatusIs => f.status
    case TitleOrDescriptionLike => f.search
    case InCategory => f.categoryId
    case InCollection => f.collectionId
  }

  /** One condition per truthy filter: the listing has exactly as many filter conditions as truthy filters. */
  lemma ListFilterCount(f: Filters)
    ensures |Active(FilterSlots(f))| == ActiveFilterCount(f)
  {
    var s := FilterSlots(f);
    assert |Active(s[..1])| == (if Js.Truthy(f.status) then 1 else 0) by {
      assert s[..0] == [];
      ActiveStep(s, 0);
    }
    assert |Active(s[..2])| == |Active(s[..1])| + (if Js.Truthy(f.search) then 1 else 0) by {
      ActiveStep(s, 1);
    }
    assert |Active(s[..3])| == |Active(s[..2])| + (if Js.Truthy(f.categoryId) then 1 else 0) by {
      ActiveStep(s, 2);
    }
    assert |Active(s[..4])| == |Active(s[..3])| + (if Js.Truthy(f.collectionId) then 1 else 0) by {
      ActiveStep(s, 3);
    }
    assert s[..4] == s;
  }

  /** Strictly increasing kinds stay strictly increasing among the active slots. */
  lemma {:induction false} ActiveSorted(slots: seq<(Kind, Option<Value>)>)
    requires forall i, j :: 0 <= i < j < |slots| ==> Rank(slots[i].0) < Rank(slots[j].0)
    ensures forall i, j :: 0 <= i < j < |Active(slots)| ==> Rank(Active(slots)[i].0) < Rank(Active(slots)[j].0)
    decreases |slots|
  {
    if |slots| > 0 {
      var init := slots[..|slots| - 1];
      var last := slots[|slots| - 1];
      ActiveSorted(init);
      var a := Active(slots);
      assert a == Active(init) + Part(last);
      if last.1.Some? {
        forall i | 0 <= i < |Active(init)|
          ensures Rank(a[i].0) < Rank(last.0)
        {
          assert a[i] == Active(init)[i];
          ActiveHas(init, a[i].0);
          var j :| 0 <= j < |init| && init[j].0 == a[i].0 && init[j].1.Some?;
          assert init[j] == slots[j];
        }
      }
    }
  }

  /** A filter has a condition iff it is truthy; the conditions follow the order status, search, category, collection. */
  lemma ListFilterPresence(f: Filters, k: Kind)
    requires k != VendorIs
    ensures (exists i :: 0 <= i < |Active(FilterSlots(f))| && Active(FilterSlots(f))[i].0 == k) <==> Js.Truthy(FilterFor(k, f))
    ensures forall i, j :: 0 <= i < j < |Active(FilterSlots(f))| ==>
      0 < Rank(Active(FilterSlots(f))[i].0) < Rank(Active(FilterSlots(f))[j].0)
  {
    var s := FilterSlots(f);
    FilterSlotsLayout(f);
    ActiveHas(s, k);
    ActiveSorted(s);
    assert s[Rank(k) - 1].0 == k;
    forall i | 0 <= i < |Active(s)| ensures 0 < Rank(Active(s)[i].0) {
      SlotOfActive(s, i);
    }
  }

  /** Helper: the slot of each filter kind sits at its rank, less one, and holds a value iff the filter is truthy. */
  lemma FilterSlotsLayout(f: Filters)
    ensures |FilterSlots(f)| == 4
    ensures forall j :: 0 <= j < 4 ==> Rank(FilterSlots(f)[j].0) == j + 1
    ensures forall j :: 0 <= j < 4 ==> (FilterSlots(f)[j].1.Some? <==> Js.Truthy(FilterFor(FilterSlots(f)[j].0, f)))
  {
  }

  /** With no filters the listing is sorted by creation time, descending, 20 rows from offset 0. */
  lemma ListDefaults()
    ensures SortColumnOf(DefaultSortBy) == CreatedAt
    ensures Text.ToUpper(DefaultSortOrder) == "DESC"
    ensures (DefaultPage - 1) * DefaultPageSize == 0
  {
  }

  // ---------------------------------------------------------------- updateProduct

  /** A partial product update; every field may be undefined. */
  datatype ProductPatch = ProductPatch(
    title: Option<string>,
    slug: Option<string>,
    description: Option<string>,
    shortDescription: Option<string>,
    price: Option<real>,
    status: Option<string>,
    filePath: Option<string>,
    thumbnailUrl: Option<string>,
    metaTitle: Option<string>,
    metaDescription: Option<string>,
    categoryIds: Option<seq<string>>,
    collectionIds: Option<seq<string>>)

  /** The columns updateProduct may set from a field, in the order it tests them. */
  datatype Column =
    | TitleColumn | SlugColumn | DescriptionColumn | ShortDescriptionColumn | PriceColumn
    | StatusColumn | FilePathColumn | ThumbnailUrlColumn | MetaTitleColumn | MetaDescriptionColumn

  function ColumnName(c: Column): (r: string) {
    match c
    case TitleColumn => "title"
    case SlugColumn => "slug"
    case DescriptionColumn => "description"
    case ShortDescriptionColumn => "short_description"
    case PriceColumn => "price"
    case StatusColumn => "status"
    case FilePathColumn => "file_path"
    case ThumbnailUrlColumn => "thumbnail_url"
    case MetaTitleColumn => "meta_title"
    case MetaDescriptionColumn => "meta_description"
  }

  /** One entry of the SET list. */
  datatype Assignment = SetColumn(column: Column, param: nat) | PublishedAtNow

  /**
   * What updateProduct runs: nothing to set means a plain fetch by id;
   * otherwise an UPDATE with its SET list, the id and vendor placeholders, and the values.
   */
  datatype UpdatePlan =
    | FetchById
    | Update(assignments: seq<Assignment>, idParam: nat, vendorParam: nat, values: seq<Value>)

  /** Follow-up statements on the link tables after a successful UPDATE. */
  datatype LinkAction =
    | DeleteCategoryLinks
    | InsertCategoryLinks(categoryIds: seq<string>)
    | DeleteCollectionLinks
    | InsertCollectionLinks(collectionIds: seq<string>)

  function StrField(o: Option<string>): (r: Option<Value>) {
    if o.Some? then Some(Str(o.value)) else None
  }

  /** The updatable columns in the order updateProduct tests them, with the value of each defined field. */
  function PatchFields(d: ProductPatch): (r: seq<(Column, Option<Value>)>) {
    [ (TitleColumn, StrField(d.title)),
      (SlugColumn, StrField(d.slug)),
      (DescriptionColumn, StrField(d.description)),
      (ShortDescriptionColumn, StrField(d.shortDescription)),
      (PriceColumn, if d.price.Some? then Some(Num(d.price.value)) else None),
      (StatusColumn, StrField(d.status)),
      (FilePathColumn, StrField(d.filePath)),
      (ThumbnailUrlColumn, StrField(d.thumbnailUrl)),
      (MetaTitleColumn, StrField(d.metaTitle)),
      (MetaDescriptionColumn, StrField(d.metaDescription)) ]
  }

  /** None of the ten updatable fields is defined (category and collection ids do not count). */
  predicate NothingToUpdate(d: ProductPatch) {
    d.title.None? && d.slug.None? && d.description.None? && d.shortDescription.None? && d.price.None?
    && d.status.None? && d.filePath.None? && d.thumbnailUrl.None? && d.metaTitle.None? && d.metaDescription.None?
  }

  /** The SET entries that bind a parameter, in order. */
  function SetColumns(updates: seq<Assignment>): (r: seq<Assignment>) {
    if |updates| == 0 then []
    else SetColumns(updates[..|updates| - 1]) + (if updates[|updates| - 1].SetColumn? then [updates[|updates| - 1]] else [])
  }

  /** `column = $k` for the k-th defined field, k counting from 1. */
  function Numbered(active: seq<(Column, Value)>): (r: seq<Assignment>) {
    seq(|active|, k requires 0 <= k < |active| => SetColumn(active[k].0, k + 1))
  }

  function ValuesOf(active: seq<(Column, Value)>): (r: seq<Value>) {
    seq(|active|, k requires 0 <= k < |active| => active[k].1)
  }

  predicate PublishedAfterStatus(updates: seq<Assignment>) {
    forall i :: 0 <= i < |updates| && updates[i] == PublishedAtNow ==>
      i > 0 && updates[i - 1].SetColumn? && updates[i - 1].column == StatusColumn
  }

  /**
   * updateProduct, SET list: one `column = $k` per defined field with k counting
   * from 1, and `published_at = NOW()` right after a status of exactly 'published'.
   */
  method CollectAssignments(d: ProductPatch) returns (updates: seq<Assignment>, values: seq<Value>)
    ensures SetColumns(updates) == Numbered(Active(PatchFields(d)))
    ensures values == ValuesOf(Active(PatchFields(d)))
    ensures PublishedAtNow in updates <==> d.status == Some("published")
    ensures PublishedAfterStatus(updates)
    ensures |updates| == 0 <==> |Active(PatchFields(d))| == 0
  {
    var fields := PatchFields(d);
    updates, values := [], [];
    var paramIndex := 1;
    for i := 0 to |fields|
      invariant paramIndex == |values| + 1
      invariant values == ValuesOf(Active(fields[..i]))
      invariant SetColumns(updates) == Numbered(Active(fields[..i]))
      invariant PublishedAtNow in updates <==> i > 5 && d.status == Some("published")
      invariant PublishedAfterStatus(updates)
      invariant |updates| == 0 <==> |Active(fields[..i])| == 0
    {
      ActiveStep(fields, i);
      StatusField(d, i);
      var (column, value) := fields[i];
      if value.Some? {
        AppendField(updates, values, Active(fields[..i]), column, value.value);
        AppendSetColumn(updates, column, paramIndex);
        updates := updates + [SetColumn(column, paramIndex)];
        values := values + [value.value];
        paramIndex := paramIndex + 1;
        if column == StatusColumn && value.value == Str("published") {
          AppendPublishedAt(updates);
          updates := updates + [PublishedAtNow];
        }
      }
    }
    assert fields[..|fields|] == fields;
  }

  /** Helper: a `column = $k` entry adds no `published_at` and keeps the existing ones after their status. */
  lemma AppendSetColumn(updates: seq<Assignment>, column: Column, param: nat)
    requires PublishedAfterStatus(updates)
    ensures PublishedAfterStatus(updates + [SetColumn(column, param)])
    ensures PublishedAtNow in updates + [SetColumn(column, param)] <==> PublishedAtNow in updates
  {
    var u := updates + [SetColumn(column, param)];
    assert forall i :: 0 <= i < |updates| ==> u[i] == updates[i];
  }

  /** Helper: `published_at = NOW()` right after the status entry binds no parameter and keeps the order rule. */
  lemma AppendPublishedAt(updates: seq<Assignment>)
    requires |updates| > 0 && updates[|updates| - 1].SetColumn? && updates[|updates| - 1].column == StatusColumn
    requires PublishedAfterStatus(updates)
    ensures PublishedAfterStatus(updates + [PublishedAtNow])
    ensures PublishedAtNow in updates + [PublishedAtNow]
    ensures SetColumns(updates + [PublishedAtNow]) == SetColumns(updates)
  {
    var u := updates + [PublishedAtNow];
    assert u[..|updates|] == updates;
    assert forall i :: 0 <= i < |updates| ==> u[i] == updates[i];
  }

  /** Only the sixth field is the status column, and it carries the status. */
  lemma StatusField(d: ProductPatch, i: nat)
    requires i < 10
    ensures PatchFields(d)[i].0 == StatusColumn <==> i == 5
    ensures PatchFields(d)[5].1 == StrField(d.status)
  {
  }

  /** Appending the next defined field keeps the SET entries and the values numbered in step. */
  lemma AppendField(updates: seq<Assignment>, values: seq<Value>, active: seq<(Column, Value)>, column: Column, v: Value)
    requires SetColumns(updates) == Numbered(active) && values == ValuesOf(active)
    ensures SetColumns(updates + [SetColumn(column, |values| + 1)]) == Numbered(active + [(column, v)])
    ensures values + [v] == ValuesOf(active + [(column, v)])
  {
    assert (updates + [SetColumn(column, |values| + 1)])[..|updates|] == updates;
  }

  /**
   * updateProduct: a plain fetch by id when no field is defined; otherwise the
   * UPDATE whose id and vendor placeholders follow the field values as the last two.
   */
  method BuildUpdate(productId: string, vendorId: string, d: ProductPatch) returns (plan: UpdatePlan)
    ensures plan.FetchById? <==> NothingToUpdate(d)
    ensures plan.Update? ==>
      var active := Active(PatchFields(d));
      var n := |active|;
      && SetColumns(plan.assignments) == Numbered(active)
      && (PublishedAtNow in plan.assignments <==> d.status == Some("published"))
      && PublishedAfterStatus(plan.assignments)
      && plan.values == ValuesOf(active) + [Str(productId), Str(vendorId)]
      && plan.idParam == n + 1 && plan.vendorParam == n + 2
  {
    var updates, values := CollectAssignments(d);
    var paramIndex := |values| + 1;
    ActiveEmptyIffNothing(d);
    if |updates| == 0 {
      plan := FetchById;
    } else {
      values := values + [Str(productId), Str(vendorId)];
      plan := Update(updates, paramIndex, paramIndex + 1, values);
    }
  }

  /** No defined field means no active slot, and conversely. */
  lemma ActiveEmptyIffNothing(d: ProductPatch)
    ensures |Active(PatchFields(d))| == 0 <==> NothingToUpdate(d)
  {
    var s := PatchFields(d);
    ActiveEmpty(s);
    if !NothingToUpdate(d) {
      var j := if d.title.Some? then 0 else if d.slug.Some? then 1 else if d.description.Some? then 2
        else if d.shortDescription.Some? then 3 else if d.price.Some? then 4 else if d.status.Some? then 5
        else if d.filePath.Some? then 6 else if d.thumbnailUrl.Some? then 7 else if d.metaTitle.Some? then 8 else 9;
      assert s[j].1.Some?;
    }
  }

  /** The active list is empty iff no slot holds a value. */
  lemma {:induction false} ActiveEmpty<K>(slots: seq<(K, Option<Value>)>)
    ensures |Active(slots)| == 0 <==> forall j :: 0 <= j < |slots| ==> slots[j].1.None?
    decreases |slots|
  {
    if |slots| > 0 {
      var init := slots[..|slots| - 1];
      ActiveEmpty(init);
      if |Active(slots)| == 0 {
        forall j | 0 <= j < |slots| ensures slots[j].1.None? {
          if j < |init| {
            assert slots[j] == init[j];
          }
        }
      }
    }
  }

  /**
   * After the UPDATE: nothing when no row was updated; otherwise, for each of
   * categoryIds and collectionIds that is defined, the old links are deleted and
   * the new ones inserted when the list is non-empty.
   */
  function LinkActions(d: ProductPatch, rowUpdated: bool): (r: seq<LinkAction>)
    ensures !rowUpdated ==> r == []
    ensures DeleteCategoryLinks in r <==> rowUpdated && d.categoryIds.Some?
    ensures DeleteCollectionLinks in r <==> rowUpdated && d.collectionIds.Some?
    ensures forall ids :: InsertCategoryLinks(ids) in r <==> rowUpdated && d.categoryIds == Some(ids) && |ids| > 0
    ensures forall ids :: InsertCollectionLinks(ids) in r <==> rowUpdated && d.collectionIds == Some(ids) && |ids| > 0
  {
    if !rowUpdated then []
    else
      (if d.categoryIds.Some? then
         [DeleteCategoryLinks] + (if |d.categoryIds.value| > 0 then [InsertCategoryLinks(d.categoryIds.value)] else [])
       else [])
      + (if d.collectionIds.Some? then
           [DeleteCollectionLinks] + (if |d.collectionIds.value| > 0 then [InsertCollectionLinks(d.collectionIds.value)] else [])
         else [])
  }

  /**
   * updateProduct as a whole: the plan, then the link statements. The link
   * tables are touched only after an UPDATE that returned a row (`rowReturned`
   * is the database's answer); a plain fetch by id returns before them.
   */
  method UpdateProduct(productId: string, vendorId: string, d: ProductPatch, rowReturned: bool)
    returns (plan: UpdatePlan, links: seq<LinkAction>)
    ensures plan.FetchById? <==> NothingToUpdate(d)
    ensures NothingToUpdate(d) ==> links == []
    ensures !NothingToUpdate(d) ==> links == LinkActions(d, rowReturned)
  {
    plan := BuildUpdate(productId, vendorId, d);
    if plan.FetchById? {
      return plan, [];
    }
    links := LinkActions(d, rowReturned);
  }

  /** A patch that only sets the category and collection ids builds no UPDATE and changes no links. */
  method LinksOnlyPatchIsIgnored(productId: string, vendorId: string, categoryIds: seq<string>,
                                 collectionIds: seq<string>, rowReturned: bool)
    returns (plan: UpdatePlan, links: seq<LinkAction>)
    ensures plan == FetchById && links == []
  {
    var d := ProductPatch(None, None, None, None, None, None, None, None, None, None,
      Some(categoryIds), Some(collectionIds));
    plan, links := UpdateProduct(productId, vendorId, d, rowReturned);
  }

  /** The value a patch gives a column, read directly off the patch. */
  function FieldValue(d: ProductPatch, c: Column): (r: Option<Value>) {
    match c
    case TitleColumn => StrField(d.title)
    case SlugColumn => StrField(d.slug)
    case DescriptionColumn => StrField(d.description)
    case ShortDescriptionColumn => StrField(d.shortDescription)
    case PriceColumn => if d.price.Some? then Some(Num(d.price.value)) else None
    case StatusColumn => StrField(d.status)
    case FilePathColumn => StrField(d.filePath)
    case ThumbnailUrlColumn => StrField(d.thumbnailUrl)
    case MetaTitleColumn => StrField(d.metaTitle)
    case MetaDescriptionColumn => StrField(d.metaDescription)
  }

  /** Position of a column in the field list. */
  function ColumnIndex(c: Column): (r: nat) {
    match c
    case TitleColumn => 0
    case SlugColumn => 1
    case DescriptionColumn => 2
    case ShortDescriptionColumn => 3
    case PriceColumn => 4
    case StatusColumn => 5
    case FilePathColumn => 6
    case ThumbnailUrlColumn => 7
    case MetaTitleColumn => 8
    case MetaDescriptionColumn => 9
  }

  /** Every active entry comes from a slot of the same key holding the same value. */
  lemma {:induction false} ActiveFrom<K>(slots: seq<(K, Option<Value>)>)
    ensures forall k :: 0 <= k < |Active(slots)| ==>
      exists j :: 0 <= j < |slots| && slots[j].0 == Active(slots)[k].0 && slots[j].1 == Some(Active(slots)[k].1)
    decreases |slots|
  {
    if |slots| > 0 {
      var init := slots[..|slots| - 1];
      ActiveFrom(init);
      var a := Active(slots);
      assert a == Active(init) + Part(slots[|slots| - 1]);
      forall k | 0 <= k < |a|
        ensures exists j :: 0 <= j < |slots| && slots[j].0 == a[k].0 && slots[j].1 == Some(a[k].1)
      {
        if k < |Active(init)| {
          assert a[k] == Active(init)[k];
          var j :| 0 <= j < |init| && init[j].0 == a[k].0 && init[j].1 == Some(a[k].1);
          assert slots[j] == init[j];
        } else {
          var last := slots[|slots| - 1];
          assert last.1.Some? && a[k] == (last.0, last.1.value);
          assert last.1 == Some(a[k].1);
        }
      }
    } else {
      assert Active(slots) == [];
    }
  }

  /**
   * The SET list covers exactly the defined fields: every `column = $k` binds
   * that column's own value from the patch, and every defined field has one.
   */
  lemma UpdateCoversDefinedFields(d: ProductPatch)
    ensures forall k :: 0 <= k < |Active(PatchFields(d))| ==>
      FieldValue(d, Active(PatchFields(d))[k].0) == Some(Active(PatchFields(d))[k].1)
    ensures forall c :: FieldValue(d, c).Some? <==>
      exists k :: 0 <= k < |Active(PatchFields(d))| && Active(PatchFields(d))[k].0 == c
  {
    var s := PatchFields(d);
    assert forall j :: 0 <= j < |s| ==> s[j].1 == FieldValue(d, s[j].0);
    ActiveFrom(s);
    forall c
      ensures FieldValue(d, c).Some? <==> exists k :: 0 <= k < |Active(s)| && Active(s)[k].0 == c
    {
      ActiveHas(s, c);
      assert s[ColumnIndex(c)].0 == c;
    }
  }
}
