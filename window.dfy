/** The result windows of both search paths. Arrays are cut with JavaScript's
    `Array.prototype.slice(start, end)`, where a negative bound counts from the
    end and every bound is clamped to the array; the store's result set
    `offset(pos)` keeps `slice(pos)` and its `limit(qty)` keeps `slice(0, qty)`. */
module Window {

  /** A slice bound resolved against an array of length `len`. */
  function Bound(n: int, len: nat): (r: nat)
    ensures r <= len
    ensures 0 <= n <= len ==> r == n
    ensures n > len ==> r == len
    ensures n < 0 ==> r == if len + n < 0 then 0 else len + n
  {
    if n < 0 then (if len + n < 0 then 0 else len + n)
    else if n > len then len
    else n
  }

  /** `s.slice(start, end)`. */
  function Slice<T>(s: seq<T>, start: int, end: int): (r: seq<T>)
    ensures var lo, hi := Bound(start, |s|), Bound(end, |s|);
      && |r| == (if lo < hi then hi - lo else 0)
      && forall i :: 0 <= i < |r| ==> r[i] == s[lo + i]
  {
    var lo, hi := Bound(start, |s|), Bound(end, |s|);
    if lo < hi then s[lo..hi] else []
  }

  /** The store's `offset(pos)`: everything from position `pos` on. */
  function Offset<T>(s: seq<T>, pos: int): (r: seq<T>)
    ensures 0 <= pos ==> r == s[(if pos <= |s| then pos else |s|)..]
  {
    Slice(s, pos, |s|)
  }

  /** The store's `limit(qty)`: the first `qty` elements. */
  function Limit<T>(s: seq<T>, qty: int): (r: seq<T>)
    ensures 0 <= qty ==> r == s[..(if qty <= |s| then qty else |s|)]
  {
    Slice(s, 0, qty)
  }

  /** The window of a page: skip `skip` elements, keep at most `count`.
      Both search paths produce it when the numbers are not negative. */
  function Page<T>(s: seq<T>, skip: nat, count: nat): (r: seq<T>)
    ensures |r| <= count
    ensures |r| == if skip + count <= |s| then count else if skip <= |s| then |s| - skip else 0
    ensures forall i :: 0 <= i < |r| ==> r[i] == s[skip + i]
  {
    if skip >= |s| then [] else if skip + count <= |s| then s[skip..skip + count] else s[skip..]
  }

  /** The store's `offset` then `limit` (the path without a query string) and
      one `slice(skip, skip + count)` (the full-text path) cut the same window. */
  lemma PaginationAgrees<T>(s: seq<T>, skip: int, count: int)
    ensures 0 <= skip && 0 <= count ==>
      && Limit(Offset(s, skip), count) == Page(s, skip, count)
      && Slice(s, skip, skip + count) == Page(s, skip, count)
  {
  }

  /** With a negative skip the two paths part ways: `offset(-2)` keeps the last
      two records, while `slice(-2, -2 + 5)` on ten records is empty. */
  lemma PaginationDivergesOnNegativeSkip()
    ensures var s := [0, 1, 2, 3, 4, 5, 6, 7, 8, 9];
      && Limit(Offset(s, -2), 5) == [8, 9]
      && Slice(s, -2, -2 + 5) == []
  {
    var s := [0, 1, 2, 3, 4, 5, 6, 7, 8, 9];
    assert Offset(s, -2) == [8, 9];
  }
}
