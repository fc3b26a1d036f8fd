/** Optional values, used wherever the Python code returns or stores `None`, and small helpers on numbers and lists. */
module Wrappers {
  datatype Option<T> = None | Some(value: T)

  function OrElse<T>(o: Option<T>, default: T): T {
    match o
    case Some(v) => v
    case None => default
  }

  function Min(a: int, b: int): int { if a <= b then a else b }
  function Max(a: int, b: int): int { if a >= b then a else b }

  /** A list that starts with `p + b` holds `b` right after `p`. */
  lemma SliceOfPrefix<T>(p: seq<T>, b: seq<T>, q: seq<T>)
    requires p + b <= q
    ensures |p| + |b| <= |q| && q[|p|..|p| + |b|] == b
  {
    assert q[|p|..|p| + |b|] == (p + b)[|p|..];
  }
}
