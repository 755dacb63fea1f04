/** The page-number strip under the feed: Prev, up to ten numbered buttons, Next. */
module PostPagination {

  const PageSize: nat := 4
  const MaxPageButtons: nat := 10

  /** `Math.ceil(totalPosts / 4)` on a natural count, computed on integers. */
  function TotalPages(totalPosts: nat): (pages: nat)
    ensures pages * PageSize >= totalPosts
    ensures pages > 0 ==> (pages - 1) * PageSize < totalPosts
  {
    (totalPosts + PageSize - 1) / PageSize
  }

  lemma TotalPagesExamples()
    ensures TotalPages(10) == 3 && TotalPages(0) == 0 && TotalPages(4) == 1 && TotalPages(5) == 2
  {
  }

  /** A page-number button: the page it sets on click, and whether it is highlighted. */
  datatype PageButton = PageButton(number: int, highlighted: bool)

  /** `pagination()`: clamps the shared `totalPages` to 10, then pushes one button per page
      from 1 upward. Returns the clamped value too, because the Next handler reads the
      reassigned variable. */
  method Pagination(totalPages: int, page: int) returns (clamped: int, buttons: seq<PageButton>)
    ensures clamped == if totalPages > MaxPageButtons then MaxPageButtons else totalPages
    ensures |buttons| == if clamped > 0 then clamped else 0
    ensures forall k :: 0 <= k < |buttons| ==> buttons[k].number == k + 1
    ensures forall k :: 0 <= k < |buttons| ==> (buttons[k].highlighted <==> page == k + 1)
  {
    clamped := totalPages;
    if clamped > MaxPageButtons {
      clamped := MaxPageButtons;
    }
    buttons := [];
    var i := 1;
    while i <= clamped
      invariant 1 <= i <= (if clamped > 0 then clamped else 0) + 1
      invariant |buttons| == i - 1
      invariant forall k :: 0 <= k < |buttons| ==> buttons[k] == PageButton(k + 1, page == k + 1)
    {
      buttons := buttons + [PageButton(i, page == i)];
      i := i + 1;
    }
  }

  /** The Prev updater: any page other than 1 moves down one. */
  function Prev(currentPage: int): (p: int)
    ensures currentPage != 1 ==> p == currentPage - 1
    ensures currentPage == 1 ==> p == 1
  {
    if currentPage != 1 then currentPage - 1 else currentPage
  }

  /** The Next updater: any page other than the (clamped) last one moves up one. */
  function Next(currentPage: int, lastPage: int): (p: int)
    ensures currentPage != lastPage ==> p == currentPage + 1
    ensures currentPage == lastPage ==> p == currentPage
  {
    if currentPage != lastPage then currentPage + 1 else currentPage
  }

  /** One render: the page count the Next handler compares with, and the buttons. */
  method Render(totalPosts: nat, page: int) returns (lastPage: int, buttons: seq<PageButton>)
    ensures lastPage == if TotalPages(totalPosts) > MaxPageButtons then MaxPageButtons else TotalPages(totalPosts)
    ensures |buttons| == lastPage
    ensures forall k :: 0 <= k < |buttons| ==> buttons[k] == PageButton(k + 1, page == k + 1)
  {
    var totalPages := TotalPages(totalPosts);
    lastPage, buttons := Pagination(totalPages, page);
  }

  /** At most one button is highlighted, and one is exactly when the page is on the strip. */
  lemma {:induction false} HighlightIsUnique(buttons: seq<PageButton>, page: int)
    requires forall k :: 0 <= k < |buttons| ==> buttons[k] == PageButton(k + 1, page == k + 1)
    ensures forall j, k :: 0 <= j < k < |buttons| ==> !(buttons[j].highlighted && buttons[k].highlighted)
    ensures (exists k :: 0 <= k < |buttons| && buttons[k].highlighted) <==> 1 <= page <= |buttons|
  {
    if 1 <= page <= |buttons| {
      assert buttons[page - 1].highlighted;
    }
  }

  /** `k` presses of Prev. */
  function PrevTimes(page: int, k: nat): int
    decreases k
  {
    if k == 0 then page else PrevTimes(Prev(page), k - 1)
  }

  /** `k` presses of Next against a fixed last page. */
  function NextTimes(page: int, lastPage: int, k: nat): int
    decreases k
  {
    if k == 0 then page else NextTimes(Next(page, lastPage), lastPage, k - 1)
  }

  /** From any page at or above 1, Prev walks down one page per press and stops at page 1. */
  lemma {:induction false} PrevStopsAtOne(page: int, k: nat)
    requires page >= 1
    ensures PrevTimes(page, k) == if page - k >= 1 then page - k else 1
    decreases k
  {
    if k > 0 {
      PrevStopsAtOne(Prev(page), k - 1);
    }
  }

  /** From a page at or below the last one, Next never passes the last page. */
  lemma {:induction false} NextStaysWithin(page: int, lastPage: int, k: nat)
    requires page <= lastPage
    ensures page <= NextTimes(page, lastPage, k) <= lastPage
    decreases k
  {
    if k > 0 {
      NextStaysWithin(Next(page, lastPage), lastPage, k - 1);
    }
  }

  /** With no posts the last page is 0, so Next from page 1 never meets it and keeps going. */
  lemma {:induction false} EmptyFeedNextRunsAway(page: int, k: nat)
    requires page >= 1
    ensures NextTimes(page, 0, k) == page + k
    decreases k
  {
    if k > 0 {
      EmptyFeedNextRunsAway(page + 1, k - 1);
    }
  }

  /** With posts, the strip's pages 1..min(pages, 10) are closed under Prev and Next. */
  lemma StripIsClosed(totalPosts: nat, page: int)
    requires totalPosts > 0
    requires 1 <= page <= (if TotalPages(totalPosts) > MaxPageButtons then MaxPageButtons else TotalPages(totalPosts))
    ensures var last := if TotalPages(totalPosts) > MaxPageButtons then MaxPageButtons else TotalPages(totalPosts);
      1 <= Prev(page) <= last && 1 <= Next(page, last) <= last
  {
  }
}
