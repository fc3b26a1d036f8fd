/**
 * Occurrence counting with a dictionary, as in `counts[k] = counts.get(k, 0) + 1`
 * applied to each key in turn. The partner of the fold is the multiset of the
 * keys: each key's count is its multiplicity.
 */
module Counting {
  /** One `counts[k] = counts.get(k, 0) + 1` step. */
  function Bump<T(==,!new)>(m: map<T, nat>, k: T): map<T, nat> {
    m[k := (if k in m then m[k] else 0) + 1]
  }

  /** The dictionary after counting `ks` in order, starting from `{}`. */
  function Tally<T(==,!new)>(ks: seq<T>): map<T, nat>
    decreases |ks|
  {
    if ks == [] then map[] else Bump(Tally(ks[..|ks| - 1]), ks[|ks| - 1])
  }

  /** The counted keys are exactly the keys that occur in `ks`. */
  lemma {:induction false} TallyKeys<T(!new)>(ks: seq<T>)
    ensures forall k :: k in Tally(ks) <==> k in ks
    decreases |ks|
  {
    if ks != [] {
      var init := ks[..|ks| - 1];
      TallyKeys(init);
      assert ks == init + [ks[|ks| - 1]];
    }
  }

  /** Counting one more key is one `Bump`. */
  lemma TallySnoc<T(!new)>(ks: seq<T>, k: T)
    ensures Tally(ks + [k]) == Bump(Tally(ks), k)
  {
    assert (ks + [k])[..|ks|] == ks;
  }

  /** Every counted key's count is the number of times it occurs in `ks`. */
  lemma {:induction false} TallyCounts<T(!new)>(ks: seq<T>)
    ensures forall k | k in Tally(ks) :: Tally(ks)[k] == multiset(ks)[k]
    decreases |ks|
  {
    if ks != [] {
      var init, last := ks[..|ks| - 1], ks[|ks| - 1];
      TallyCounts(init);
      TallyKeys(init);
      assert ks == init + [last];
      assert multiset(ks) == multiset(init) + multiset{last};
    }
  }

  /** `counts.get(k, 0)` after counting: the multiplicity of `k`, zero for a key never seen. */
  lemma CountOrZero<T(!new)>(ks: seq<T>, k: T)
    ensures (if k in Tally(ks) then Tally(ks)[k] else 0) == multiset(ks)[k]
  {
    TallyCounts(ks);
    TallyKeys(ks);
  }

  /** The positions holding `true`. */
  function Marked(flags: seq<bool>): set<nat> {
    set i: nat | i < |flags| && flags[i]
  }

  lemma MarkedSnoc(flags: seq<bool>, b: bool)
    ensures Marked(flags + [b]) == Marked(flags) + (if b then {|flags|} else {})
    ensures |flags| !in Marked(flags)
  {
    var extra: set<nat> := if b then {|flags|} else {};
    forall i: nat
      ensures i in Marked(flags + [b]) <==> i in Marked(flags) + extra
    {
      if i < |flags| {
        assert (flags + [b])[i] == flags[i];
      }
    }
  }

  /** The positions of the elements `f` holds of. */
  function MarkedBy<T>(xs: seq<T>, f: T -> bool): set<nat> {
    Marked(seq(|xs|, i requires 0 <= i < |xs| => f(xs[i])))
  }

  lemma MarkedBySnoc<T>(xs: seq<T>, f: T -> bool)
    requires xs != []
    ensures var n := |xs| - 1;
      MarkedBy(xs, f) == MarkedBy(xs[..n], f) + (if f(xs[n]) then {n} else {})
      && n !in MarkedBy(xs[..n], f)
  {
    var n := |xs| - 1;
    var init := seq(n, i requires 0 <= i < n => f(xs[..n][i]));
    assert seq(|xs|, i requires 0 <= i < |xs| => f(xs[i])) == init + [f(xs[n])];
    MarkedSnoc(init, f(xs[n]));
  }
}
