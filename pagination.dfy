/** The category page's page cache (src/utils/page_pignation.rs): the groupings already received,
    keyed by page number, the page on show and a result count. */
module Pagination {
  import opened Ints
  import FetchService

  class NewsPagination {
    var pages: map<i32, FetchService.Grouped>
    var currentPage: i32
    var totalResults: nat

    /** The state `new` builds. */
    predicate IsFresh()
      reads this
    {
      pages == map[] && currentPage == 1 && totalResults == 0
    }

    /** `NewsPagination::new`: nothing cached, on page 1. */
    constructor ()
      ensures IsFresh()
    {
      pages := map[];
      currentPage := 1;
      totalResults := 0;
    }

    /** `reset`: back to the state `new` builds whatever came before, forgetting every cached page;
        on a fresh pagination it changes nothing. */
    method Reset()
      modifies this
      ensures IsFresh()
      ensures forall n :: n !in pages
      ensures old(IsFresh()) ==> pages == old(pages) && currentPage == old(currentPage) && totalResults == old(totalResults)
    {
      pages := map[];
      currentPage := 1;
      totalResults := 0;
    }
  }
}
