/** Small shared vocabulary: Rust's `Option`, `Ordering`, and the result of
    `slice::binary_search_by`. */
module Prelude {

  datatype Option<T> = None | Some(value: T)

  /** `std::cmp::Ordering`. */
  datatype Ordering = Less | Equal | Greater

  /** Position of an ordering in `Less < Equal < Greater`. */
  function Rank(o: Ordering): nat
  {
    match o
    case Less => 0
    case Equal => 1
    case Greater => 2
  }

  /** `ids` lists the members of `s`, each once: one order in which a
      `HashMap` or `HashSet` may be iterated. */
  ghost predicate ListsOnce<T(!new)>(ids: seq<T>, s: set<T>)
  {
    (forall id :: id in ids <==> id in s)
    && forall i, j :: 0 <= i < j < |ids| ==> ids[i] != ids[j]
  }

  /** `Ok(i)` / `Err(i)` returned by `binary_search_by`. */
  datatype SearchResult = Found(index: nat) | NotFound(index: nat)

  /** The precondition `binary_search_by` documents: the comparator maps the
      slice to a run of `Less`, then `Equal`, then `Greater`. */
  ghost predicate Partitioned<T>(s: seq<T>, f: T -> Ordering)
  {
    forall i, j :: 0 <= i < j < |s| ==> Rank(f(s[i])) <= Rank(f(s[j]))
  }

  /** `slice::binary_search_by(f)`: on a partitioned slice it reports some
      index whose element compares `Equal`, or, when there is none, the index
      that separates the `Less` elements from the `Greater` ones. Which of
      several `Equal` elements is reported is left open, as in Rust. */
  method BinarySearchBy<T>(s: seq<T>, f: T -> Ordering) returns (r: SearchResult)
    requires Partitioned(s, f)
    ensures r.Found? ==> r.index < |s| && f(s[r.index]) == Equal
    ensures r.NotFound? ==> r.index <= |s|
    ensures r.NotFound? ==> forall i :: 0 <= i < r.index ==> f(s[i]) == Less
    ensures r.NotFound? ==> forall i :: r.index <= i < |s| ==> f(s[i]) == Greater
  {
    var lo, hi := 0, |s|;
    while lo < hi
      invariant 0 <= lo <= hi <= |s|
      invariant forall i :: 0 <= i < lo ==> f(s[i]) == Less
      invariant forall i :: hi <= i < |s| ==> f(s[i]) == Greater
    {
      var mid := lo + (hi - lo) / 2;
      var c := f(s[mid]);
      if c == Equal {
        return Found(mid);
      } else if c == Less {
        lo := mid + 1;
      } else {
        hi := mid;
      }
    }
    r := NotFound(lo);
  }
}
