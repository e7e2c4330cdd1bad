/** What both pagination loops share: a run ends at the first empty page. */
module Paging {

  /** Some response page is empty, so the `while (!done)` loop ends. */
  predicate HasEmptyPage<T>(pages: seq<seq<T>>) {
    exists i :: 0 <= i < |pages| && |pages[i]| == 0
  }

  /** The index of the first empty page. */
  function FirstEmpty<T>(pages: seq<seq<T>>): (k: nat)
    requires HasEmptyPage(pages)
    ensures k < |pages| && |pages[k]| == 0
    ensures forall j :: 0 <= j < k ==> |pages[j]| > 0
  {
    if |pages[0]| == 0 then 0
    else
      assert HasEmptyPage(pages[1..]) by {
        var i :| 0 <= i < |pages| && |pages[i]| == 0;
        assert pages[1..][i - 1] == pages[i];
      }
      FirstEmpty(pages[1..]) + 1
  }

  /** The first `n` request offsets of a loop that advances by `step`. */
  function Offsets(n: nat, step: nat): (r: seq<nat>)
    ensures |r| == n
    ensures forall j :: 0 <= j < n ==> r[j] == j * step
  {
    if n == 0 then [] else Offsets(n - 1, step) + [(n - 1) * step]
  }

  /** The items of all pages, page by page in order. */
  function Flatten<T>(pages: seq<seq<T>>): seq<T> {
    if pages == [] then [] else Flatten(pages[..|pages| - 1]) + pages[|pages| - 1]
  }

  /** Handing over one more page appends its items. */
  lemma FlattenStep<T>(pages: seq<seq<T>>, k: nat)
    requires k < |pages|
    ensures Flatten(pages[..k + 1]) == Flatten(pages[..k]) + pages[k]
  {
    assert pages[..k + 1][..k] == pages[..k];
  }

  /** The total number of items on the given pages. */
  function TotalItems<T>(pages: seq<seq<T>>): nat {
    if pages == [] then 0 else |pages[0]| + TotalItems(pages[1..])
  }

  lemma {:induction false} FlattenLength<T>(pages: seq<seq<T>>)
    ensures |Flatten(pages)| == TotalItems(pages)
  {
    if pages != [] {
      var init := pages[..|pages| - 1];
      FlattenLength(init);
      TotalItemsSnoc(init, pages[|pages| - 1]);
      assert init + [pages[|pages| - 1]] == pages;
    }
  }

  lemma {:induction false} TotalItemsSnoc<T>(pages: seq<seq<T>>, page: seq<T>)
    ensures TotalItems(pages + [page]) == TotalItems(pages) + |page|
  {
    if pages != [] {
      assert (pages + [page])[1..] == pages[1..] + [page];
      TotalItemsSnoc(pages[1..], page);
    }
  }
}
