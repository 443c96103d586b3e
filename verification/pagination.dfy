/**
 * The paging arithmetic of the messages page (web_admin.py): Python's slice
 * `messages[start:end]` with start = (page - 1) * 20 and end = start + 20, and
 * `total_pages = (len(messages) + 19) // 20`.
 */
module Pagination {

  /** `per_page` in `messages_page`. */
  const PerPage: nat := 20

  /** How Python normalises one bound of `s[i:j]` (step 1) for a sequence of length n. */
  function SliceBound(i: int, n: nat): (b: nat)
    ensures b <= n
    ensures 0 <= i <= n ==> b == i
    ensures i > n ==> b == n
    ensures i < 0 ==> b == if i + n < 0 then 0 else i + n
  {
    if i < 0 then (if i + n < 0 then 0 else i + n)
    else if i > n then n
    else i
  }

  /**
   * Python's `s[i:j]`: both bounds are clamped to [0, |s|] after a negative
   * bound is counted from the end; an empty run when they cross.
   */
  function PySlice<T>(s: seq<T>, i: int, j: int): (r: seq<T>)
    ensures var lo, hi := SliceBound(i, |s|), SliceBound(j, |s|);
      |r| == (if lo < hi then hi - lo else 0) &&
      forall k :: 0 <= k < |r| ==> r[k] == s[lo + k]
  {
    var lo, hi := SliceBound(i, |s|), SliceBound(j, |s|);
    if lo < hi then s[lo..hi] else []
  }

  function Min(a: int, b: int): int { if a <= b then a else b }

  /** `messages[start:end]` for the requested page number. */
  function Page<T>(s: seq<T>, page: int): (r: seq<T>)
    ensures |r| <= PerPage
    ensures page >= 1 ==> r == s[Min((page - 1) * PerPage, |s|)..Min(page * PerPage, |s|)]
    ensures page == 0 ==> r == []
  {
    var start := (page - 1) * PerPage;
    PySlice(s, start, start + PerPage)
  }

  /** `total_pages`: the ceiling of n / 20, by floor division. */
  function TotalPages(n: nat): (t: nat)
    ensures n == 0 ==> t == 0
    ensures n > 0 ==> (t - 1) * PerPage < n <= t * PerPage
  {
    (n + PerPage - 1) / PerPage
  }

  /** A page past the messages is empty rather than an error. */
  lemma PageBeyondEndIsEmpty<T>(s: seq<T>, page: int)
    requires page >= 1 && (page - 1) * PerPage >= |s|
    ensures Page(s, page) == []
  {
  }

  /** A positive page holds something exactly when it is one of the first `total_pages`. */
  lemma PageNonEmptyIff<T>(s: seq<T>, page: int)
    requires page >= 1
    ensures Page(s, page) != [] <==> page <= TotalPages(|s|)
  {
  }

  /**
   * A negative page is not rejected: Python counts both bounds from the end,
   * so page -k shows the 20 messages ending 20 * k before the last one.
   */
  lemma NegativePage<T>(s: seq<T>, page: int)
    requires page <= -1
    ensures var lo := |s| + (page - 1) * PerPage;
      var hi := |s| + page * PerPage;
      Page(s, page) == if hi <= 0 then [] else s[(if lo < 0 then 0 else lo)..hi]
  {
  }

  /** Pages 1 to k laid end to end. */
  function Pages<T>(s: seq<T>, k: nat): seq<T>
  {
    if k == 0 then [] else Pages(s, k - 1) + Page(s, k)
  }

  /** The first k pages are the first 20 * k messages, in their original order. */
  lemma {:induction false} PagesArePrefix<T>(s: seq<T>, k: nat)
    ensures Pages(s, k) == s[..Min(k * PerPage, |s|)]
  {
    if k > 0 {
      PagesArePrefix(s, k - 1);
      var a, b := Min((k - 1) * PerPage, |s|), Min(k * PerPage, |s|);
      assert s[..a] + s[a..b] == s[..b];
    }
  }

  /** Pages 1 .. total_pages partition the messages: nothing lost, repeated or reordered. */
  lemma AllPagesCoverMessages<T>(s: seq<T>)
    ensures Pages(s, TotalPages(|s|)) == s
  {
    PagesArePrefix(s, TotalPages(|s|));
  }

  /** With 45 messages: 3 pages; page 1 is the first 20, page 3 the last 5, page 4 empty. */
  lemma FortyFiveMessages<T>(s: seq<T>)
    requires |s| == 45
    ensures TotalPages(|s|) == 3
    ensures Page(s, 1) == s[..20]
    ensures Page(s, 3) == s[40..] && |Page(s, 3)| == 5
    ensures Page(s, 4) == []
  {
  }
}
