/** The web storefront's ProductGrid pagination bar: eight products a page,
    a previous and a next button, and between them a button for the first
    page, the last page and the pages next to the current one, with an
    ellipsis standing in for a run of hidden pages. */
module ProductGrid {
  import opened Seqs

  const ProductsPerPage: nat := 8

  /** `Math.ceil(totalProducts / 8)`. */
  function TotalPages(totalProducts: nat): (pages: nat)
    ensures pages * ProductsPerPage >= totalProducts
    ensures pages > 0 ==> (pages - 1) * ProductsPerPage < totalProducts
  {
    (totalProducts + ProductsPerPage - 1) / ProductsPerPage
  }

  datatype SlotKind = PageButton | Ellipsis | Hidden

  /** What the range map returns for one page; `Hidden` stands for `null`. */
  datatype Slot = Slot(page: int, kind: SlotKind)

  /** The callback of `[...Array(totalPages)].map` for page `i + 1`. */
  function SlotFor(page: int, currentPage: int, totalPages: int): Slot
  {
    if page == 1 || page == totalPages || (currentPage - 1 <= page && page <= currentPage + 1) then
      Slot(page, PageButton)
    else if (page == currentPage - 2 && currentPage > 3)
         || (page == currentPage + 2 && currentPage < totalPages - 2) then
      Slot(page, Ellipsis)
    else
      Slot(page, Hidden)
  }

  /** One slot per page 1 .. totalPages, in page order. */
  function Slots(currentPage: int, totalPages: nat): seq<Slot>
  {
    seq(totalPages, i requires 0 <= i < totalPages => SlotFor(i + 1, currentPage, totalPages))
  }

  /** What React renders: the slots with the `null`s dropped. */
  function Rendered(currentPage: int, totalPages: nat): seq<Slot>
  {
    Filter(Slots(currentPage, totalPages), (s: Slot) => s.kind != Hidden)
  }

  /** A page gets a button exactly when it is in range and is the first
      page, the last page or within one of the current page. */
  lemma ButtonShown(currentPage: int, totalPages: nat, page: int)
    ensures Slot(page, PageButton) in Rendered(currentPage, totalPages)
        <==> 1 <= page <= totalPages
             && (page == 1 || page == totalPages || currentPage - 1 <= page <= currentPage + 1)
  {
    var s := Slots(currentPage, totalPages);
    if 1 <= page <= totalPages {
      assert s[page - 1] == SlotFor(page, currentPage, totalPages);
    }
  }

  /** An ellipsis appears at currentPage - 2 only when currentPage > 3, at
      currentPage + 2 only when currentPage < totalPages - 2, nowhere else,
      and never on a page that has a button: in particular never on the
      first or last page. */
  lemma EllipsisShown(currentPage: int, totalPages: nat, page: int)
    ensures Slot(page, Ellipsis) in Rendered(currentPage, totalPages)
        <==> 1 <= page <= totalPages
             && Slot(page, PageButton) !in Rendered(currentPage, totalPages)
             && ((page == currentPage - 2 && currentPage > 3)
                 || (page == currentPage + 2 && currentPage < totalPages - 2))
    ensures Slot(page, Ellipsis) in Rendered(currentPage, totalPages) ==> 1 < page < totalPages
  {
    ButtonShown(currentPage, totalPages, page);
    var s := Slots(currentPage, totalPages);
    if 1 <= page <= totalPages {
      assert s[page - 1] == SlotFor(page, currentPage, totalPages);
    }
  }

  /** Every rendered slot is for a page in [1, totalPages], and the pages
      strictly increase, so none appears twice. */
  lemma RenderedInOrder(currentPage: int, totalPages: nat)
    ensures forall i :: 0 <= i < |Rendered(currentPage, totalPages)|
              ==> 1 <= Rendered(currentPage, totalPages)[i].page <= totalPages
    ensures forall i, j :: 0 <= i < j < |Rendered(currentPage, totalPages)|
              ==> Rendered(currentPage, totalPages)[i].page < Rendered(currentPage, totalPages)[j].page
  {
    var s := Slots(currentPage, totalPages);
    FilterKeepsPairwise(s, (x: Slot) => x.kind != Hidden, (a: Slot, b: Slot) => a.page < b.page);
    var r := Rendered(currentPage, totalPages);
    forall i | 0 <= i < |r| ensures 1 <= r[i].page <= totalPages {
      var j :| 0 <= j < |s| && s[j] == r[i];
    }
  }

  /** Previous is disabled exactly on page one. */
  predicate PreviousDisabled(currentPage: int)
  {
    currentPage == 1
  }

  /** Next is disabled exactly on the last page. */
  predicate NextDisabled(currentPage: int, totalPages: int)
  {
    currentPage == totalPages
  }

  /** On a page in range, an enabled previous or next button leads to a
      neighbouring page that is in range and has its own button. */
  lemma NeighboursReachable(currentPage: int, totalPages: nat)
    requires 1 <= currentPage <= totalPages
    ensures !PreviousDisabled(currentPage)
            ==> Slot(currentPage - 1, PageButton) in Rendered(currentPage, totalPages)
    ensures !NextDisabled(currentPage, totalPages)
            ==> Slot(currentPage + 1, PageButton) in Rendered(currentPage, totalPages)
  {
    ButtonShown(currentPage, totalPages, currentPage - 1);
    ButtonShown(currentPage, totalPages, currentPage + 1);
  }

  /** With no products there are no pages, yet on the default page one the
      next button is enabled (its guard compares against zero) and leads to
      page two. */
  lemma EmptyCatalogNextEnabled()
    ensures TotalPages(0) == 0 && |Rendered(1, 0)| == 0
    ensures !NextDisabled(1, TotalPages(0))
  {
  }
}
