/** Searching positions downwards for the first one where a partial function is defined. */
module Search {
  import opened Common

  datatype Hit<+T> = Hit(at: nat, value: T)

  /** The largest position below n where f is defined. */
  function LastHit<T>(f: nat -> Option<T>, n: nat): (r: Option<Hit<T>>)
    ensures r.Some? ==> r.value.at < n && f(r.value.at) == Some(r.value.value)
    ensures forall s: nat {:trigger f(s)} | s < n && (r.Some? ==> r.value.at < s) :: f(s).None?
  {
    if n == 0 then None else
      match f(n - 1)
      case Some(x) => Some(Hit(n - 1, x))
      case None => LastHit(f, n - 1)
  }
}
