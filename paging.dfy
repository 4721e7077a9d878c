/**
 * The pagination rules shared by the transaction list and the position list:
 * ten items to a page, at least one page, and a page is a slice of the list.
 */
module Paging {

  const ITEMS_PER_PAGE: nat := 10

  function Min(a: int, b: int): int
  {
    if a <= b then a else b
  }

  /** p is the page count of a list of n items: one page when the list is empty, ⌈n / 10⌉ otherwise. */
  predicate IsPageCount(n: nat, p: nat)
  {
    && p >= 1
    && (n == 0 ==> p == 1)
    && (n > 0 ==> (p - 1) * ITEMS_PER_PAGE < n <= p * ITEMS_PER_PAGE)
  }

  /** A list length has one page count, so IsPageCount defines maxPage rather than bounding it. */
  lemma PageCountUnique(n: nat, p: nat, q: nat)
    requires IsPageCount(n, p) && IsPageCount(n, q)
    ensures p == q
  {
  }

  /**
   * The items of page `page` (numbered from 1). JavaScript's slice clamps both ends to the
   * length, so a page past the end is empty and the last page may be short.
   */
  function PageOf<T>(s: seq<T>, page: nat): (r: seq<T>)
    requires page >= 1
    ensures |r| <= ITEMS_PER_PAGE
    ensures |r| == if ITEMS_PER_PAGE * (page - 1) >= |s| then 0
                   else Min(ITEMS_PER_PAGE, |s| - ITEMS_PER_PAGE * (page - 1))
    ensures forall k :: 0 <= k < |r| ==> r[k] == s[ITEMS_PER_PAGE * (page - 1) + k]
  {
    var lo := Min(ITEMS_PER_PAGE * (page - 1), |s|);
    var hi := Min(ITEMS_PER_PAGE * page, |s|);
    s[lo..hi]
  }

  /** Pages 1 to k of s, laid end to end. */
  function PagesUpTo<T>(s: seq<T>, k: nat): seq<T>
  {
    if k == 0 then [] else PagesUpTo(s, k - 1) + PageOf(s, k)
  }

  lemma {:induction false} PagesUpToPrefix<T>(s: seq<T>, k: nat)
    ensures PagesUpTo(s, k) == s[..Min(ITEMS_PER_PAGE * k, |s|)]
  {
    if k > 0 {
      PagesUpToPrefix(s, k - 1);
      var lo := Min(ITEMS_PER_PAGE * (k - 1), |s|);
      var hi := Min(ITEMS_PER_PAGE * k, |s|);
      assert PageOf(s, k) == s[lo..hi];
      assert s[..lo] + s[lo..hi] == s[..hi];
    }
  }

  /** The pages 1 .. maxPage together show every item once, in list order. */
  lemma PagesCover<T>(s: seq<T>, maxPage: nat)
    requires IsPageCount(|s|, maxPage)
    ensures PagesUpTo(s, maxPage) == s
  {
    PagesUpToPrefix(s, maxPage);
  }

  /** Every page from 1 to maxPage of a non-empty list shows at least one item. */
  lemma PagesInRangeNonEmpty<T>(s: seq<T>, maxPage: nat, page: nat)
    requires IsPageCount(|s|, maxPage) && 1 <= page <= maxPage && |s| > 0
    ensures |PageOf(s, page)| > 0
  {
  }
}
