/**
  Facts about the constant lookup tables behind the Go `String()` methods: a
  table is an array of flags indexed by the enum's iota value. A table whose
  entries are pairwise distinct can be read backwards, which is what makes the
  enum-to-flag mappings injective.
 */
module FlagTable {
  import opened Wrappers

  /** No entry of `t` occurs twice (stated recursively, head against tail). */
  predicate Distinct<T(==)>(t: seq<T>)
    decreases |t|
  {
    |t| == 0 || (t[0] !in t[1..] && Distinct(t[1..]))
  }

  /** Distinct tables have pairwise different entries at different indices. */
  lemma {:induction false} DistinctIndices<T>(t: seq<T>, i: nat, j: nat)
    requires Distinct(t)
    requires i < |t| && j < |t| && i != j
    ensures t[i] != t[j]
    decreases |t|
  {
    if i == 0 {
      assert t[j] == t[1..][j - 1];
    } else if j == 0 {
      assert t[i] == t[1..][i - 1];
    } else {
      DistinctIndices(t[1..], i - 1, j - 1);
    }
  }

  /**
    Indexing table `t` with an arbitrary `int`, as Go indexes an array: `None`
    is the index-out-of-range panic.
   */
  function At<T>(t: seq<T>, v: int): (r: Option<T>)
    ensures r.Some? <==> 0 <= v < |t|
    ensures r.Some? ==> r.value == t[v]
  {
    if 0 <= v < |t| then Some(t[v]) else None
  }

  /** The first index at which `x` occurs in `t`, or `None` when it does not occur. */
  function IndexOf<T(==)>(t: seq<T>, x: T): (r: Option<nat>)
    ensures r.Some? ==> r.value < |t| && t[r.value] == x
    ensures r.Some? ==> forall j :: 0 <= j < r.value ==> t[j] != x
    ensures r.None? <==> x !in t
    decreases |t|
  {
    if |t| == 0 then None
    else if t[0] == x then Some(0)
    else match IndexOf(t[1..], x)
      case None => None
      case Some(k) => Some(k + 1)
  }

  /** In a distinct table, looking up the entry at `i` gives back `i`. */
  lemma {:induction false} IndexOfDistinct<T>(t: seq<T>, i: nat)
    requires Distinct(t)
    requires i < |t|
    ensures IndexOf(t, t[i]) == Some(i)
  {
    var r := IndexOf(t, t[i]);
    assert r.Some?;
    if r.value != i {
      DistinctIndices(t, r.value, i);
    }
  }
}
