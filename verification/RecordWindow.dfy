/**
 The ancestor record map served from the shared cache with the store as fallback, equal to a plain
 store walk whatever other callers insert or evict between its steps.
 */
module RecordWindow {
  import opened Coins
  import opened RecordWalk
  import opened RecordCache

  /** A record as the store holds it. */
  ghost predicate Genuine(w: Source, store: set<Hash>, r: Record) {
    r.hash in store && r == w(r.hash)
  }

  /** Everything cached is in the store. */
  ghost predicate Within(w: Source, store: set<Hash>, v: Window) {
    forall h :: h in v ==> Genuine(w, store, v[h]) && v[h].height == h
  }

  ghost predicate AllGenuine(w: Source, store: set<Hash>, rs: seq<Record>) {
    forall i :: 0 <= i < |rs| ==> Genuine(w, store, rs[i])
  }

  /** The window after inserting records one by one. */
  ghost function PutAll(v: Window, rs: seq<Record>, capacity: nat): Window {
    if rs == [] then v else Put(PutAll(v, rs[..|rs| - 1], capacity), rs[|rs| - 1], capacity)
  }

  lemma PutWithin(w: Source, store: set<Hash>, v: Window, r: Record, capacity: nat)
    requires Within(w, store, v) && Genuine(w, store, r)
    ensures Within(w, store, Put(v, r, capacity))
  {
  }

  lemma WithinGrows(w: Source, a: set<Hash>, b: set<Hash>, v: Window)
    requires Within(w, a, v) && a <= b
    ensures Within(w, b, v)
  {
  }

  lemma GenuineGrows(w: Source, a: set<Hash>, b: set<Hash>, rs: seq<Record>)
    requires AllGenuine(w, a, rs) && a <= b
    ensures AllGenuine(w, b, rs)
  {
  }

  /** A cached copy agrees with the store. */
  lemma CachedIsGenuine(w: Source, store: set<Hash>, ix: Index, x: Hash)
    requires Agree(ix) && Within(w, store, Contents(ix)) && x in ix.byHash
    ensures x in store && ix.byHash[x] == w(x)
  {
    CachedIsInWindow(ix, x);
  }

  /** Another caller's inserts. */
  method InsertAll(cache: BlockRecordCache, rs: seq<Record>, ghost w: Source, ghost store: set<Hash>)
    requires cache.Valid() && Within(w, store, cache.View()) && AllGenuine(w, store, rs)
    modifies cache
    ensures cache.Valid() && Within(w, store, cache.View())
    ensures cache.View() == PutAll(old(cache.View()), rs, cache.capacity)
  {
    hide Agree, Contents, Put, Within;
    assert rs[..0] == [];
    for i := 0 to |rs|
      invariant cache.Valid() && Within(w, store, cache.View())
      invariant cache.View() == PutAll(old(cache.View()), rs[..i], cache.capacity)
    {
      if rs[i].hash in cache.byHash {
        CachedIsGenuine(w, store, cache.Ix(), rs[i].hash);
      }
      PutWithin(w, store, cache.View(), rs[i], cache.capacity);
      cache.Insert(rs[i]);
      assert rs[..i + 1][..i] == rs[..i];
    }
    assert rs[..|rs|] == rs;
  }

  function Reversed<T>(s: seq<T>): (r: seq<T>)
    ensures |r| == |s| && forall i :: 0 <= i < |s| ==> r[i] == s[|s| - 1 - i]
  {
    seq(|s|, i requires 0 <= i < |s| => s[|s| - 1 - i])
  }

  /** What the other callers do: before each read they insert records the store then holds. */
  ghost predicate Honest(w: Source, known: Known, others: nat -> seq<Record>) {
    forall k :: AllGenuine(w, known(k), others(k))
  }

  /** Where the walk stands: met so far, and what is left to meet. */
  ghost predicate Midway(w: Source, known: Known, start: Hash, n: nat, met: seq<Hash>, h: Hash, k: nat) {
    k <= n && Walk(w, known, start, 0, n) == met + Walk(w, known, h, k, n - k)
  }

  lemma MidwayStart(w: Source, known: Known, start: Hash, n: nat)
    ensures Midway(w, known, start, n, [], start, 0)
  {
    assert [] + Walk(w, known, start, 0, n) == Walk(w, known, start, 0, n);
  }

  lemma MidwayStep(w: Source, known: Known, start: Hash, n: nat, met: seq<Hash>, h: Hash, k: nat)
    requires Midway(w, known, start, n, met, h, k)
    ensures k == n || h !in known(k) ==> Walk(w, known, start, 0, n) == met
    ensures k < n && h in known(k) && w(h).height == 0 ==> Walk(w, known, start, 0, n) == met + [h]
    ensures k < n && h in known(k) && w(h).height > 0 ==> Midway(w, known, start, n, met + [h], w(h).prev, k + 1)
  {
    var rest := Walk(w, known, h, k, n - k);
    if k == n || h !in known(k) {
      assert met + [] == met;
    } else if w(h).height > 0 {
      var tail := Walk(w, known, w(h).prev, k + 1, n - k - 1);
      assert met + ([h] + tail) == met + [h] + tail;
    }
  }

  lemma RecordsGrow(w: Source, met: seq<Hash>, h: Hash)
    ensures RecordsOf(w, met + [h]) == RecordsOf(w, met)[h := w(h)]
  {
  }

  /** The ancestor map of `anchor`, `depth` records deep. */
  method WindowedRecordsMap(cache: BlockRecordCache, w: Source, known: Known, others: nat -> seq<Record>,
                            anchor: Record, depth: nat)
    returns (m: map<Hash, Record>, hits: nat, misses: nat)
    requires cache.Valid() && Growing(known) && Sealed(w) && Honest(w, known, others) && Within(w, known(0), cache.View())
    modifies cache
    ensures m == RecordsOf(w, Walk(w, known, anchor.hash, 0, depth))
    ensures hits + misses == |Walk(w, known, anchor.hash, 0, depth)|
    ensures cache.Valid() && Within(w, known(depth), cache.View())
  {
    hide Agree, Contents, Within, Walk, Midway, PutAll, AllGenuine, RecordsOf;
    m, hits, misses := map[], 0, 0;
    var fetched: seq<Record> := [];
    var hash := anchor.hash;
    ghost var met: seq<Hash> := [];
    MidwayStart(w, known, anchor.hash, depth);
    NoRecords(w, known(0));
    var k, stopped := 0, false;
    while k < depth && !stopped
      invariant k <= depth
      invariant if stopped then Walk(w, known, anchor.hash, 0, depth) == met
                else Midway(w, known, anchor.hash, depth, met, hash, k)
      invariant cache.Valid() && Within(w, known(k), cache.View()) && AllGenuine(w, known(k), fetched)
      invariant m == RecordsOf(w, met) && hits + misses == |met|
    {
      InsertAll(cache, others(k), w, known(k));
      MidwayStep(w, known, anchor.hash, depth, met, hash, k);
      var rec := w(hash);
      if hash in cache.byHash {
        CachedIsGenuine(w, known(k), cache.Ix(), hash);
        rec := cache.byHash[hash];
        hits := hits + 1;
      } else if hash in known(k) {
        FetchOne(w, known(k), fetched, hash);
        misses := misses + 1;
        fetched := fetched + [rec];
      } else {
        stopped := true;
      }
      if !stopped {
        RecordsGrow(w, met, hash);
        m := m[hash := rec];
        met := met + [hash];
        stopped := rec.height == 0;
        hash := rec.prev;
      }
      WithinGrows(w, known(k), known(k + 1), cache.View());
      GenuineGrows(w, known(k), known(k + 1), fetched);
      k := k + 1;
    }
    if !stopped {
      MidwayStep(w, known, anchor.hash, depth, met, hash, k);
    }
    FinishFetch(cache, fetched, w, known(k));
    WithinGrows(w, known(k), known(depth), cache.View());
  }

  lemma NoRecords(w: Source, store: set<Hash>)
    ensures RecordsOf(w, []) == map[] && AllGenuine(w, store, [])
  {
  }

  lemma FetchOne(w: Source, store: set<Hash>, fetched: seq<Record>, h: Hash)
    requires Sealed(w) && AllGenuine(w, store, fetched) && h in store
    ensures AllGenuine(w, store, fetched + [w(h)])
  {
    assert w(h).hash == h;
  }

  method FinishFetch(cache: BlockRecordCache, fetched: seq<Record>, ghost w: Source, ghost store: set<Hash>)
    requires cache.Valid() && Within(w, store, cache.View()) && AllGenuine(w, store, fetched)
    modifies cache
    ensures cache.Valid() && Within(w, store, cache.View())
    ensures cache.View() == PutAll(old(cache.View()), Reversed(fetched), cache.capacity)
  {
    if fetched != [] {
      InsertAll(cache, Reversed(fetched), w, store);
    }
  }
}
