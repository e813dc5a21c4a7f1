/**
  Pagination as the task and user pages do it: the search box, the page
  cursor and the page size are page state; the visible rows are a `slice` of
  the filtered list, the page count is a ceiling, and each row is numbered
  from its position in the filtered list.
 */
module Paging {
  import opened Js
  import Lists

  /** `list.slice((page - 1) * size, page * size)`; the user page writes the
      end bound as `startIndex + size`, which is the same number. */
  function PageOf<T>(s: seq<T>, page: int, size: int): (r: seq<T>)
    ensures page >= 1 && size >= 1 ==> |r| <= size
    ensures page >= 1 && size >= 1 ==>
      forall i :: 0 <= i < |r| ==> StartIndex(page, size) + i < |s| && r[i] == s[StartIndex(page, size) + i]
  {
    Lists.Slice(s, StartIndex(page, size), StartIndex(page, size) + size)
  }

  function StartIndex(page: int, size: int): (r: int)
    ensures page >= 1 && size >= 0 ==> r >= 0
  {
    (page - 1) * size
  }

  /** Each page starts `size` rows after the one before. */
  lemma StartIndexNext(page: int, size: int)
    ensures StartIndex(page + 1, size) == StartIndex(page, size) + size
  {
  }

  lemma MulMonotone(a: int, b: int, size: nat)
    requires a <= b
    ensures a * size <= b * size
  {
    assert b * size == a * size + (b - a) * size;
  }

  /** `Math.ceil(n / size)`: the fewest pages of `size` rows that hold `n` rows. */
  function PageCount(n: nat, size: int): (r: nat)
    requires size > 0
    ensures r == 0 <==> n == 0
    ensures n <= r * size
    ensures r > 0 ==> (r - 1) * size < n
  {
    var r := (n + size - 1) / size;
    assert (n + size - 1) == r * size + (n + size - 1) % size;
    r
  }

  /** The rows of a page in range are the consecutive rows of the list from
      its start index; a page holds at most `size` rows. */
  lemma PageContents<T>(s: seq<T>, page: int, size: int)
    requires page >= 1 && size >= 1
    ensures |PageOf(s, page, size)| <= size
    ensures StartIndex(page, size) >= |s| ==> PageOf(s, page, size) == []
    ensures StartIndex(page, size) < |s| ==>
      PageOf(s, page, size) == s[StartIndex(page, size)..Min(StartIndex(page, size) + size, |s|)]
  {
  }

  function Min(a: int, b: int): int
  {
    if a < b then a else b
  }

  /** Pages after the last one are empty. */
  lemma PagesBeyondLastEmpty<T>(s: seq<T>, page: int, size: int)
    requires size >= 1 && page > PageCount(|s|, size)
    ensures PageOf(s, page, size) == []
  {
    var last := PageCount(|s|, size);
    MulMonotone(last, page - 1, size);
    PageContents(s, page, size);
  }

  /** Pages `from` to `to`, one after the other. */
  function Pages<T>(s: seq<T>, size: int, from: int, to: int): seq<T>
    decreases to - from
  {
    if from > to then [] else PageOf(s, from, size) + Pages(s, size, from + 1, to)
  }

  /** Every row is on exactly one page: pages 1 to `PageCount` put together
      give back the whole list, in order. */
  lemma PagesCover<T>(s: seq<T>, size: int)
    requires size >= 1
    ensures Pages(s, size, 1, PageCount(|s|, size)) == s
  {
    PagesFrom(s, size, 1);
  }

  lemma {:induction false} PagesFrom<T>(s: seq<T>, size: int, k: int)
    requires size >= 1 && 1 <= k <= PageCount(|s|, size) + 1
    ensures StartIndex(k, size) <= |s| ==> Pages(s, size, k, PageCount(|s|, size)) == s[StartIndex(k, size)..]
    ensures StartIndex(k, size) > |s| ==> Pages(s, size, k, PageCount(|s|, size)) == []
    decreases PageCount(|s|, size) + 1 - k
  {
    var last := PageCount(|s|, size);
    var st := StartIndex(k, size);
    if k <= last {
      MulMonotone(k - 1, last - 1, size);
      assert st < |s|;
      StartIndexNext(k, size);
      PagesFrom(s, size, k + 1);
      PageContents(s, k, size);
      if st + size <= |s| {
        assert s[st..] == s[st..st + size] + s[st + size..];
      } else {
        assert s[st..] == s[st..|s|];
      }
    } else {
      MulMonotone(last, k - 1, size);
      assert st >= |s|;
    }
  }

  /** The number in the first column of a table row: `(page - 1) * size + index + 1`
      on the task page, `startIndex + index + 1` on the user page. */
  function RowNumber(page: int, size: int, index: int): (r: int)
    ensures page >= 1 && size >= 0 && index >= 0 ==> r >= index + 1
    ensures 0 <= index < size ==> StartIndex(page, size) < r <= StartIndex(page + 1, size)
  {
    StartIndex(page, size) + index + 1
  }

  /** The row numbered `n` shows element `n - 1` of the filtered list. */
  lemma RowNumberNamesRow<T>(s: seq<T>, page: int, size: int, index: int)
    requires page >= 1 && size >= 1 && 0 <= index < |PageOf(s, page, size)|
    ensures 1 <= RowNumber(page, size, index) <= |s|
    ensures s[RowNumber(page, size, index) - 1] == PageOf(s, page, size)[index]
  {
    PageContents(s, page, size);
  }

  /** No two rows on any two pages carry the same number. */
  lemma RowNumbersDistinct(size: int, p1: int, i1: int, p2: int, i2: int)
    requires size >= 1 && p1 >= 1 && p2 >= 1
    requires 0 <= i1 < size && 0 <= i2 < size
    requires RowNumber(p1, size, i1) == RowNumber(p2, size, i2)
    ensures p1 == p2 && i1 == i2
  {
    if p1 < p2 {
      StartIndexNext(p2 - 1, size);
      MulMonotone(p1, p2 - 1, size);
    } else if p2 < p1 {
      StartIndexNext(p1 - 1, size);
      MulMonotone(p2, p1 - 1, size);
    }
  }

  /** The page sizes both pages offer. */
  const PageSizeOptions: seq<string> := ["10", "25", "50", "100"]

  /** The search term, page cursor and page size a list page keeps in its own
      state. */
  class PageControls {
    var searchTerm: string
    var currentPage: int
    var itemsPerPage: int

    predicate Valid()
      reads this
    {
      itemsPerPage >= 1
    }

    constructor ()
      ensures searchTerm == "" && currentPage == 1 && itemsPerPage == 10
      ensures Valid()
    {
      searchTerm := "";
      currentPage := 1;
      itemsPerPage := 10;
    }

    /** The search box: the page cursor stays where it was. */
    method SetSearchTerm(term: string)
      modifies this
      ensures searchTerm == term
      ensures currentPage == old(currentPage) && itemsPerPage == old(itemsPerPage)
    {
      searchTerm := term;
    }

    /** `onPageChange`. */
    method SetCurrentPage(page: int)
      modifies this
      ensures currentPage == page
      ensures searchTerm == old(searchTerm) && itemsPerPage == old(itemsPerPage)
    {
      currentPage := page;
    }

    /** `onPageSizeChange`: a chosen size is parsed and the cursor goes back
        to page 1; clearing the selector does nothing. */
    method OnPageSizeChange(value: Option<string>)
      requires Valid()
      requires Present(value) ==> value.value in PageSizeOptions
      modifies this
      ensures Valid()
      ensures Present(value) ==> itemsPerPage == ParseDigits(value.value) && currentPage == 1
      ensures Present(value) ==> itemsPerPage in {10, 25, 50, 100}
      ensures !Present(value) ==> currentPage == old(currentPage) && itemsPerPage == old(itemsPerPage)
      ensures searchTerm == old(searchTerm)
    {
      if Present(value) {
        OptionsParse(value.value);
        itemsPerPage := ParseDigits(value.value);
        currentPage := 1;
      }
    }
  }

  /** Each offered page size parses to its number. */
  lemma OptionsParse(v: string)
    requires v in PageSizeOptions
    ensures ParseDigits(v) in {10, 25, 50, 100}
  {
    if v == "10" {
      assert v[..1] == "1";
    } else if v == "25" {
      assert v[..1] == "2";
    } else if v == "50" {
      assert v[..1] == "5";
    } else {
      assert v[..2] == "10" && v[..2][..1] == "1";
    }
  }
}
