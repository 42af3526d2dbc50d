/** src/pagination.js: the page of a list, one-based. */
module Pagination {
  import opened JsBuiltins

  /** `paginate(items, page, perPage)`: `items.slice(start, start + perPage)` where
      `start = (page - 1) * perPage`. */
  function Paginate<T>(items: seq<T>, page: int, perPage: int): seq<T> {
    var start := (page - 1) * perPage;
    Slice(items, start, start + perPage)
  }

  function Min(a: int, b: int): int {
    if a < b then a else b
  }

  /** For a page from 1 on and a non-negative page size, the page is the window
      [start, start + perPage) clipped to the list. */
  lemma PaginateWindow<T>(items: seq<T>, page: int, perPage: int)
    requires page >= 1 && perPage >= 0
    ensures var start := (page - 1) * perPage;
      Paginate(items, page, perPage) == items[Min(start, |items|)..Min(start + perPage, |items|)]
  {
    var start := (page - 1) * perPage;
    assert start >= 0 by {
      assert page - 1 >= 0;
    }
  }

  /** A page never holds more than perPage items. */
  lemma PaginateAtMostPerPage<T>(items: seq<T>, page: int, perPage: int)
    requires perPage >= 0
    ensures |Paginate(items, page, perPage)| <= perPage
  {
  }

  /** A page that starts at or beyond the end is empty. */
  lemma PaginateBeyondEnd<T>(items: seq<T>, page: int, perPage: int)
    requires perPage >= 0 && (page - 1) * perPage >= |items|
    ensures Paginate(items, page, perPage) == []
  {
  }

  /** Pages 1..k one after the other. */
  function Pages<T>(items: seq<T>, k: nat, perPage: int): seq<T> {
    if k == 0 then [] else Pages(items, k - 1, perPage) + Paginate(items, k, perPage)
  }

  lemma MulStep(k: nat, perPage: int)
    requires k > 0 && perPage >= 0
    ensures k * perPage == (k - 1) * perPage + perPage && (k - 1) * perPage >= 0
  {
  }

  /** Reading pages 1..k in turn yields the first min(k * perPage, |items|) items, nothing skipped
      and nothing repeated. */
  lemma {:induction false} PagesArePrefix<T>(items: seq<T>, k: nat, perPage: int)
    requires perPage >= 0
    ensures Pages(items, k, perPage) == items[..Min(k * perPage, |items|)]
  {
    if k > 0 {
      PagesArePrefix(items, k - 1, perPage);
      MulStep(k, perPage);
      var start := (k - 1) * perPage;
      var n := |items|;
      var a, b := Min(start, n), Min(start + perPage, n);
      PaginateWindow(items, k, perPage);
      assert Paginate(items, k, perPage) == items[a..b];
      assert Pages(items, k - 1, perPage) == items[..a];
      assert items[..a] + items[a..b] == items[..b];
    }
  }

  /** Page 2 of 25 items, ten to a page, is the items at indices 10 to 19. */
  lemma SecondPageOfTwentyFive<T>(items: seq<T>)
    requires |items| == 25
    ensures Paginate(items, 2, 10) == items[10..20]
  {
  }
}
