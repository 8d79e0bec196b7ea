/**
 Block records and the walk over their parent links: from a hash, follow parents while the record is
 known, stopping after genesis or a given number of records.
 */
module RecordWalk {
  import opened Coins

  type Record = BlockRecord

  /** The record each hash commits to. */
  type Source = Hash -> Record

  ghost predicate Sealed(w: Source) {
    forall h :: w(h).hash == h
  }

  /** The hashes a store holds as each read of a walk sees it. */
  type Known = nat -> set<Hash>

  /** The hashes met from `h` on, in at most `n` reads; read number `k` sees the store `known(k)`. */
  function Walk(w: Source, known: Known, h: Hash, k: nat, n: nat): (walk: seq<Hash>)
    ensures |walk| <= n
    decreases n
  {
    if n == 0 || h !in known(k) then []
    else if w(h).height == 0 then [h]
    else [h] + Walk(w, known, w(h).prev, k + 1, n - 1)
  }

  /** The records of a walk by hash. */
  function RecordsOf(w: Source, walk: seq<Hash>): map<Hash, Record> {
    map h | h in walk :: w(h)
  }

  function Held(store: set<Hash>): Known {
    _ => store
  }

  /** The plain walk over one store. */
  function StoreWalk(w: Source, store: set<Hash>, h: Hash, n: nat): seq<Hash> {
    Walk(w, Held(store), h, 0, n)
  }

  /** A store that only grows. */
  ghost predicate Growing(known: Known) {
    forall i, j :: 0 <= i <= j ==> known(i) <= known(j)
  }

  /** A walk over a growing store meets what the first store holds, and nothing the last does not. */
  lemma {:induction false} WalkIsBetween(w: Source, known: Known, h: Hash, k: nat, n: nat)
    requires Growing(known)
    ensures Walk(w, Held(known(k)), h, k, n) <= Walk(w, known, h, k, n) <= Walk(w, Held(known(k + n)), h, k, n)
    decreases n
  {
    if n > 0 && h in known(k) && w(h).height > 0 {
      var p := w(h).prev;
      WalkIsBetween(w, known, p, k + 1, n - 1);
      WalkGrows(w, known(k), known(k + 1), p, k + 1, n - 1);
    }
  }

  lemma {:induction false} WalkGrows(w: Source, a: set<Hash>, b: set<Hash>, h: Hash, k: nat, n: nat)
    requires a <= b
    ensures Walk(w, Held(a), h, k, n) <= Walk(w, Held(b), h, k, n)
    decreases n
  {
    if n > 0 && h in a && w(h).height > 0 {
      WalkGrows(w, a, b, w(h).prev, k + 1, n - 1);
    }
  }

  lemma {:induction false} WalkShift(w: Source, store: set<Hash>, h: Hash, j: nat, k: nat, n: nat)
    ensures Walk(w, Held(store), h, j, n) == Walk(w, Held(store), h, k, n)
    decreases n
  {
    if n > 0 && h in store && w(h).height > 0 {
      WalkShift(w, store, w(h).prev, j + 1, k + 1, n - 1);
    }
  }

  /** Over a store that does not change during the walk, it is the plain store walk. */
  lemma {:induction false} SteadyWalk(w: Source, known: Known, store: set<Hash>, h: Hash, k: nat, n: nat)
    requires forall j :: k <= j < k + n ==> known(j) == store
    ensures Walk(w, known, h, k, n) == StoreWalk(w, store, h, n)
    decreases n
  {
    if n > 0 && h in store && w(h).height > 0 {
      SteadyWalk(w, known, store, w(h).prev, k + 1, n - 1);
      WalkShift(w, store, w(h).prev, 0, 1, n - 1);
    }
  }

  /** Each link of the held records drops height by one. */
  ghost predicate Consecutive(w: Source, store: set<Hash>) {
    forall h :: h in store && w(h).height > 0 && w(h).prev in store ==> w(w(h).prev).height == w(h).height - 1
  }

  /** On consecutive records a walk descends one height at a time. */
  lemma {:induction false} WalkHeights(w: Source, store: set<Hash>, h: Hash, k: nat, n: nat, i: nat)
    requires Consecutive(w, store) && i < |Walk(w, Held(store), h, k, n)|
    ensures w(h).height >= i && w(Walk(w, Held(store), h, k, n)[i]).height == w(h).height - i
    ensures Walk(w, Held(store), h, k, n)[i] in store
    decreases n
  {
    if i > 0 {
      WalkHeights(w, store, w(h).prev, k + 1, n - 1, i - 1);
    }
  }
}
