/**
 * Paging through a list: both `peekQueue` of the flat-file driver and `peek`
 * of the in-memory queue return a slice of `limit` items from position
 * `index`.
 */
module Slices {
  /** The number of items in a slice of `limit` from position `index` of `n`
      items: `limit` when that many remain, what remains otherwise, none past
      the end. */
  function Window(n: nat, index: nat, limit: nat): (r: nat)
    ensures r <= limit && r <= n
    ensures index < n ==> r == if limit <= n - index then limit else n - index
    ensures n <= index ==> r == 0
  {
    if n <= index then 0 else if limit <= n - index then limit else n - index
  }
}
