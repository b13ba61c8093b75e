/** The arithmetic of the pagination control in `components/Pagination.tsx`:
    how many pages there are, where a click lands, and which buttons are
    disabled. Rendering is not modelled. */
module PaginationControl {
  import opened Wrappers
  import opened JsArray
  import opened ArticleTypes
  import opened Filtering

  /** `Math.ceil(total / perPage)` for a count and a positive page size: the
      fewest pages of `perPage` items that hold `total` items. */
  function CeilDiv(total: nat, perPage: int): (r: nat)
    requires perPage >= 1
    ensures r * perPage >= total
    ensures r == 0 || (r - 1) * perPage < total
  {
    var q := total / perPage;
    if q * perPage == total then q else q + 1
  }

  /** `Math.max(1, Math.ceil(total / perPage))`: never 0, even for no items.
      A negative `perPage` (the store path reports the limit it was given,
      which the route may have parsed as negative) makes the quotient at most
      zero, so there is exactly one page. */
  function TotalPages(total: nat, perPage: int): (r: int)
    requires perPage != 0
    ensures r >= 1
    ensures perPage >= 1 ==> r * perPage >= total
    ensures perPage >= 1 ==> r == 1 || (r - 1) * perPage < total
    ensures perPage < 0 ==> r == 1
  {
    if perPage < 0 then 1 else Max(1, CeilDiv(total, perPage))
  }

  /** `Math.min(Math.max(next, 1), totalPages)` */
  function Clamp(next: int, totalPages: int): (r: int)
    requires totalPages >= 1
    ensures 1 <= r <= totalPages
    ensures 1 <= next <= totalPages ==> r == next
    ensures next < 1 ==> r == 1
    ensures next > totalPages ==> r == totalPages
  {
    Min(Max(next, 1), totalPages)
  }

  /** `changePage(next)`: the page handed to `onPageChange`, if it is called. */
  function ChangePage(page: int, totalPages: int, next: int): (r: Option<int>)
    requires totalPages >= 1
    ensures r.Some? ==> 1 <= r.value <= totalPages && r.value != page
    ensures r.None? <==> Clamp(next, totalPages) == page
    ensures 1 <= next <= totalPages && next != page ==> r == Some(next)
  {
    var clamped := Clamp(next, totalPages);
    if clamped != page then Some(clamped) else None
  }

  predicate PreviousDisabled(page: int) { page == 1 }

  predicate NextDisabled(page: int, totalPages: int) { page == totalPages }

  /** "Précédent": disabled only on page 1. Otherwise a click moves one page
      back from a page up to one past the end, jumps to the last page from a
      page further out, and to page 1 from a page below 1. */
  lemma PreviousClick(page: int, totalPages: int)
    requires totalPages >= 1
    ensures PreviousDisabled(page) ==> ChangePage(page, totalPages, page - 1).None?
    ensures 2 <= page <= totalPages + 1 ==> ChangePage(page, totalPages, page - 1) == Some(page - 1)
    ensures page > totalPages + 1 ==> ChangePage(page, totalPages, page - 1) == Some(totalPages)
    ensures page < 1 ==> ChangePage(page, totalPages, page - 1) == Some(1)
  {
  }

  /** "Suivant": disabled only on the last page. Otherwise a click moves one
      page forward from a page before the last, but from a page past the end
      it is enabled and moves BACK to the last page. */
  lemma NextClick(page: int, totalPages: int)
    requires totalPages >= 1
    ensures NextDisabled(page, totalPages) ==> ChangePage(page, totalPages, page + 1).None?
    ensures 0 <= page < totalPages ==> ChangePage(page, totalPages, page + 1) == Some(page + 1)
    ensures page > totalPages ==>
      !NextDisabled(page, totalPages) && ChangePage(page, totalPages, page + 1) == Some(totalPages)
    ensures page < 0 ==> ChangePage(page, totalPages, page + 1) == Some(1)
  {
  }

  lemma MulMono(a: int, b: int, n: int)
    requires a <= b && n >= 0
    ensures a * n <= b * n
  {
  }

  /** The control fed with the paginator's own page, total and page size, as
      the listing does. Up to the last page "Suivant" is disabled exactly when
      the paginator reports no further items; past the end (`?page=99`) the
      paginator reports none, yet "Suivant" stays enabled and leads back to the
      last page. */
  lemma NextDisabledIffNoMore(items: seq<Article>, page: int, perPage: int)
    ensures var r := Paginate(items, page, perPage);
      var t := TotalPages(r.total, r.perPage);
      r.page <= t ==> (NextDisabled(r.page, t) <==> !r.hasMore)
    ensures var r := Paginate(items, page, perPage);
      var t := TotalPages(r.total, r.perPage);
      r.page > t ==>
        (!NextDisabled(r.page, t) && !r.hasMore && ChangePage(r.page, t, r.page + 1) == Some(t))
  {
    var r := Paginate(items, page, perPage);
    var p, n := r.page, r.perPage;
    var t := TotalPages(|items|, n);
    assert r.hasMore <==> p * n < |items|;
    if p < t {
      MulMono(p, t - 1, n);
    } else {
      MulMono(t, p, n);
    }
  }
}
