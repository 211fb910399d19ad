/** The page arithmetic of `showPager`. */
module Paging {

  /** `Math.ceil(total / perPage)` for a positive page size. */
  function PageCount(total: int, perPage: int): (n: int)
    requires perPage > 0
    ensures (n - 1) * perPage < total <= n * perPage
  {
    var n := (total + perPage - 1) / perPage;
    assert n * perPage + (total + perPage - 1) % perPage == total + perPage - 1;
    n
  }

  /** The pager is drawn (more than one page) exactly when the items do not fit on one page. */
  lemma MoreThanOnePage(total: int, perPage: int)
    requires perPage > 0
    ensures PageCount(total, perPage) > 1 <==> total > perPage
  {
    var n := PageCount(total, perPage);
    if n > 1 {
      assert (n - 1) * perPage == (n - 2) * perPage + perPage;
      assert (n - 2) * perPage >= 0;
    } else {
      assert n * perPage == perPage - (1 - n) * perPage;
      assert (1 - n) * perPage >= 0;
    }
  }
}
