/**
 * The pagination of the invoices page: the current page read from the query
 * string, the links it builds with `createPageURL`, the position each entry
 * of the page list gets, and the disabled state of the previous and next
 * links. The page list itself (`generatePagination`), the page count from
 * the database, `Number(...)` of the `page` parameter, `toString` of a number
 * and percent-encoding are parameters.
 */
module InvoicesPage {
  import opened Wrappers
  import Js
  import UrlParams
  import Text

  /** `Number(searchParams?.page) || 1`: NaN and 0 fall back to page 1. */
  function CurrentPage(page: Js.Number): (r: real)
    ensures r != 0.0
    ensures Js.TruthyNumber(page) ==> r == page.value
    ensures !Js.TruthyNumber(page) ==> r == 1.0
  {
    if Js.TruthyNumber(page) then page.value else 1.0
  }

  /** The parameters `createPageURL` sets: `query` when non-empty, then `page`. */
  function PageParams(query: string, pageText: string): (r: seq<UrlParams.Param>)
    ensures UrlParams.Get(r, "page") == Some(pageText)
    ensures UrlParams.Get(r, "query") == (if query != "" then Some(query) else None)
    ensures |r| == (if query != "" then 2 else 1)
    ensures r[|r| - 1] == UrlParams.Param("page", pageText)
  {
    var start: seq<UrlParams.Param> := [];
    var withQuery := if query != "" then UrlParams.Set(start, "query", query) else start;
    assert UrlParams.Count(withQuery, "page") == 0 by {
      if query != "" {
        assert withQuery == [UrlParams.Param("query", query)];
        assert withQuery[1..] == [];
      }
    }
    var r := UrlParams.Set(withQuery, "page", pageText);
    assert query != "" ==> r[1..] == [UrlParams.Param("page", pageText)] by {
      if query != "" {
        assert r == [UrlParams.Param("query", query), UrlParams.Param("page", pageText)];
      }
    }
    r
  }

  const Path := "/dashboard/invoices?"

  /** `createPageURL(pageNumber)`, given the text of the page number. */
  function PageUrl(query: string, pageText: string, encode: string -> string): (r: string)
    ensures |r| >= |Path| && r[..|Path|] == Path
  {
    Path + UrlParams.Serialize(PageParams(query, pageText), encode)
  }

  /** Without a search, a page link carries the page alone. */
  lemma PageUrlWithoutQuery(pageText: string, encode: string -> string)
    ensures PageUrl("", pageText, encode) == Path + encode("page") + "=" + encode(pageText)
  {
    var ps := PageParams("", pageText);
    assert ps == [UrlParams.Param("page", pageText)];
  }

  /** With a search, the query comes before the page. */
  lemma PageUrlWithQuery(query: string, pageText: string, encode: string -> string)
    requires query != ""
    ensures PageUrl(query, pageText, encode)
      == Path + encode("query") + "=" + encode(query) + "&" + encode("page") + "=" + encode(pageText)
  {
    PageParamsWithQuery(query, pageText);
    SerializeTwo(UrlParams.Param("query", query), UrlParams.Param("page", pageText), encode);
  }

  /** Helper: with a search, the parameters are the query and then the page. */
  lemma PageParamsWithQuery(query: string, pageText: string)
    requires query != ""
    ensures PageParams(query, pageText) == [UrlParams.Param("query", query), UrlParams.Param("page", pageText)]
  {
    var ps := PageParams(query, pageText);
    assert ps[1] == UrlParams.Param("page", pageText);
    assert UrlParams.Get(ps, "query") == Some(query);
  }

  /** Helper: two parameters serialise as `a=x&b=y`. */
  lemma SerializeTwo(p: UrlParams.Param, q: UrlParams.Param, encode: string -> string)
    ensures UrlParams.Serialize([p, q], encode)
      == encode(p.name) + "=" + encode(p.value) + "&" + encode(q.name) + "=" + encode(q.value)
  {
    var ps := [p, q];
    var parts := seq(|ps|, i requires 0 <= i < |ps| => encode(ps[i].name) + "=" + encode(ps[i].value));
    assert parts == [encode(p.name) + "=" + encode(p.value), encode(q.name) + "=" + encode(q.value)];
    assert parts[1..] == [parts[1]];
    assert Text.Join(parts, "&") == parts[0] + "&" + parts[1];
  }

  /** An entry of the page list: a page number, or a label such as '...'. */
  datatype Entry = PageNo(n: real) | Label(text: string)

  datatype Position = First | Last | Single | Middle

  /**
   * The position an entry ends up with: the later assignments win, so an
   * ellipsis is `middle` wherever it stands, a list of one is `single`, and
   * `first` is kept only by an entry that none of the others applies to.
   */
  function PositionOf(index: nat, length: nat, entry: Entry): (r: Option<Position>) {
    if entry == Label("...") then Some(Middle)
    else if length == 1 then Some(Single)
    else if index == length - 1 then Some(Last)
    else if index == 0 then Some(First)
    else None
  }

  /** The classification as written: four assignments in a row, each overriding the last. */
  method ClassifyPosition(index: nat, length: nat, entry: Entry) returns (position: Option<Position>)
    ensures position == PositionOf(index, length, entry)
  {
    position := None;
    if index == 0 {
      position := Some(First);
    }
    if index == length - 1 {
      position := Some(Last);
    }
    if length == 1 {
      position := Some(Single);
    }
    if entry == Label("...") {
      position := Some(Middle);
    }
  }

  /** What the page list renders: an ellipsis, or a link with its page text and active flag. */
  datatype Item = Ellipsis | Link(href: string, text: string, active: bool)

  /** The text `toString` gives an entry: a label is its own text. */
  function EntryText(e: Entry, numberText: real -> string): (r: string) {
    match e
    case PageNo(n) => numberText(n)
    case Label(t) => t
  }

  /** `allPages.map(...)`: active is `currentPage === page`, which a label never satisfies. */
  function Items(allPages: seq<Entry>, currentPage: real, query: string,
                 numberText: real -> string, encode: string -> string): (r: seq<Item>)
    ensures |r| == |allPages|
    ensures forall i :: 0 <= i < |r| ==> (r[i].Ellipsis? <==> allPages[i] == Label("..."))
    ensures forall i :: 0 <= i < |r| && r[i].Link? ==>
      (r[i].active <==> allPages[i] == PageNo(currentPage))
      && r[i].href == PageUrl(query, EntryText(allPages[i], numberText), encode)
  {
    seq(|allPages|, i requires 0 <= i < |allPages| =>
      if PositionOf(i, |allPages|, allPages[i]) == Some(Middle) then Ellipsis
      else
        var text := EntryText(allPages[i], numberText);
        Link(PageUrl(query, text, encode), text, allPages[i] == PageNo(currentPage)))
  }

  /** When the page numbers in the list are distinct, at most one link is active. */
  lemma AtMostOneActive(allPages: seq<Entry>, currentPage: real, query: string,
                        numberText: real -> string, encode: string -> string, i: nat, j: nat)
    requires forall a, b :: 0 <= a < b < |allPages| && allPages[a].PageNo? ==> allPages[a] != allPages[b]
    requires i < j < |allPages|
    ensures var r := Items(allPages, currentPage, query, numberText, encode);
      !(r[i].Link? && r[i].active && r[j].Link? && r[j].active)
  {
  }

  /** A label other than '...' is rendered as a link to a page named after the label, never active. */
  lemma OtherLabelsBecomeLinks(allPages: seq<Entry>, currentPage: real, query: string,
                               numberText: real -> string, encode: string -> string, i: nat)
    requires i < |allPages| && allPages[i].Label? && allPages[i].text != "..."
    ensures var r := Items(allPages, currentPage, query, numberText, encode);
      r[i] == Link(PageUrl(query, allPages[i].text, encode), allPages[i].text, false)
  {
  }

  /** In a list of two or more, the first entry is `first` and the last is `last`, unless they are ellipses. */
  lemma EndsOfLongList(length: nat, a: Entry, b: Entry)
    requires length >= 2 && a != Label("...") && b != Label("...")
    ensures PositionOf(0, length, a) == Some(First)
    ensures PositionOf(length - 1, length, b) == Some(Last)
    ensures forall k: nat :: 0 < k < length - 1 ==> PositionOf(k, length, a) == None
  {
  }

  /** `aria-disabled` of the previous link. */
  predicate PreviousDisabled(currentPage: real) { currentPage <= 1.0 }

  /** `aria-disabled` of the next link. */
  predicate NextDisabled(currentPage: real, totalPages: int) { currentPage >= totalPages as real }

  /** The two arrow links: their targets and whether each is disabled. */
  datatype Arrows = Arrows(previousHref: string, previousDisabled: bool, nextHref: string, nextDisabled: bool)

  function RenderArrows(currentPage: real, totalPages: int, query: string,
                        numberText: real -> string, encode: string -> string): (r: Arrows)
    ensures r.previousHref == PageUrl(query, numberText(currentPage - 1.0), encode)
    ensures r.nextHref == PageUrl(query, numberText(currentPage + 1.0), encode)
    ensures r.previousDisabled <==> currentPage <= 1.0
    ensures r.nextDisabled <==> currentPage >= totalPages as real
  {
    Arrows(PageUrl(query, numberText(currentPage - 1.0), encode), PreviousDisabled(currentPage),
           PageUrl(query, numberText(currentPage + 1.0), encode), NextDisabled(currentPage, totalPages))
  }

  /**
   * Both arrows are enabled exactly strictly between the first and the last
   * page, so with one page, or none, both are disabled.
   */
  lemma ArrowsEnabledStrictlyInside(page: Js.Number, totalPages: int, query: string,
                                    numberText: real -> string, encode: string -> string)
    ensures var c := CurrentPage(page);
      var a := RenderArrows(c, totalPages, query, numberText, encode);
      (!a.previousDisabled && !a.nextDisabled) <==> 1.0 < c < totalPages as real
    ensures totalPages <= 1 ==>
      (RenderArrows(1.0, totalPages, query, numberText, encode).previousDisabled
      && RenderArrows(1.0, totalPages, query, numberText, encode).nextDisabled)
  {
  }

  /** A negative page number from the URL is kept: its previous arrow is disabled, its next arrow is not. */
  lemma NegativePageKept(totalPages: int, query: string, numberText: real -> string, encode: string -> string)
    requires totalPages >= 0
    ensures CurrentPage(Js.Num(-3.0)) == -3.0
    ensures var a := RenderArrows(-3.0, totalPages, query, numberText, encode);
      a.previousDisabled && !a.nextDisabled
  {
  }
}
