/**
 Refilling the record cache from the store: the ancestry repair before a consensus walk, the warm-up
 after a restart, and the walk depth they must cover.
 */
module RecordRepair {
  import opened Arithmetic
  import opened Coins
  import opened RecordWalk
  import opened RecordCache
  import opened RecordWindow

  // ---- How deep a consensus walk reads -------------------------------------------------------------------

  datatype Constants = Constants(subEpochBlocks: nat, epochBlocks: nat, maxSubSlotBlocks: nat, minBlocksPerChallengeBlock: nat)

  predicate Sane(c: Constants) {
    c.subEpochBlocks > 0 && c.epochBlocks > 0
  }

  function ConsensusWalkWindow(c: Constants): nat {
    c.epochBlocks + c.subEpochBlocks + 6 * c.maxSubSlotBlocks
  }

  predicate CanBeFirstInEpoch(c: Constants, height: nat)
    requires Sane(c)
  {
    (height - height % c.subEpochBlocks) % c.epochBlocks == 0
  }

  /** The last multiple of `step` at or below `x`. */
  function RoundDown(x: nat, step: nat): (r: nat)
    requires step > 0
    ensures r <= x < r + step
  {
    x - x % step
  }

  function LowestRead(c: Constants, prevHeight: nat): (low: nat)
    requires Sane(c)
  {
    var boundary := RoundDown(prevHeight, c.subEpochBlocks);
    if CanBeFirstInEpoch(c, prevHeight + 1) then
      var next := prevHeight + 2 * c.maxSubSlotBlocks + c.minBlocksPerChallengeBlock + 5;
      Min(boundary, SaturatingSub(RoundDown(next, c.epochBlocks), c.epochBlocks))
    else boundary
  }

  function DifficultyRecordDepth(c: Constants, prevHeight: nat): nat
    requires Sane(c)
  {
    SaturatingSub(prevHeight, SaturatingSub(LowestRead(c, prevHeight), 4 * c.maxSubSlotBlocks)) + 1
  }

  lemma RoundsAbove(x: nat, floor: nat, step: nat)
    requires step > 0 && floor % step == 0 && floor <= x
    ensures RoundDown(x, step) >= floor
  {
    var a, b := x / step, floor / step;
    assert x == step * a + x % step && floor == step * b;
    if a < b {
      MulGrows(a + 1, b, step);
    } else {
      MulGrows(b, a, step);
    }
  }

  lemma LowestReadBound(c: Constants, prevHeight: nat)
    requires Sane(c)
    ensures LowestRead(c, prevHeight) <= prevHeight
    ensures prevHeight + 2 <= LowestRead(c, prevHeight) + c.epochBlocks + c.subEpochBlocks + 1
  {
    hide RoundDown;
    RoundDownBound(prevHeight, c.subEpochBlocks);
    if CanBeFirstInEpoch(c, prevHeight + 1) {
      var next := prevHeight + 2 * c.maxSubSlotBlocks + c.minBlocksPerChallengeBlock + 5;
      var first := (prevHeight + 1) - (prevHeight + 1) % c.subEpochBlocks;
      RoundsAbove(next, first, c.epochBlocks);
    }
  }

  lemma RoundDownBound(x: nat, step: nat)
    requires step > 0
    ensures RoundDown(x, step) <= x < RoundDown(x, step) + step
  {
  }

  /** At every height the deepest walk, with the repair's slack, fits the window. */
  lemma DepthFits(c: Constants, prevHeight: nat)
    requires Sane(c)
    ensures 1 <= DifficultyRecordDepth(c, prevHeight) <= prevHeight + 1
    ensures DifficultyRecordDepth(c, prevHeight) + 2 * c.maxSubSlotBlocks <= ConsensusWalkWindow(c)
  {
    LowestReadBound(c, prevHeight);
    hide LowestRead;
  }

  // ---- Inserts below the tip never push out the walk ----------------------------------------------------------

  ghost predicate Has(v: Window, r: Record) {
    r.height in v && v[r.height] == r
  }

  ghost predicate Below(v: Window, top: nat) {
    forall h :: h in v ==> h <= top
  }

  lemma {:induction false} RangeSize(heights: set<nat>, low: nat, end: nat)
    requires low <= end && forall h :: h in heights ==> low <= h < end
    ensures |heights| <= end - low
    decreases end - low
  {
    if low == end {
      assert heights == {};
    } else {
      RangeSize(heights - {end - 1}, low, end - 1);
    }
  }

  /** With nothing cached above `top`, an insert drops no record of the `capacity` heights up to `top`. */
  lemma PutKeepsHigh(v: Window, r: Record, capacity: nat, top: nat, x: Record)
    requires Below(v, top) && r.height <= top && x.height <= top < x.height + capacity
    requires (Has(v, x) && (x.height == r.height ==> x == r)) || x == r
    ensures Has(Put(v, r, capacity), x) && Below(Put(v, r, capacity), top)
  {
    var u := v[r.height := r];
    if |u.Keys| > capacity {
      var low := Lowest(u.Keys);
      if low == x.height {
        RangeSize(u.Keys, low, top + 1);
        assert false;
      }
    }
  }

  lemma PutStaysBelow(v: Window, r: Record, capacity: nat, top: nat)
    requires Below(v, top) && r.height <= top
    ensures Below(Put(v, r, capacity), top)
  {
  }

  lemma {:induction false} PutAllKeeps(v: Window, rs: seq<Record>, capacity: nat, top: nat, x: Record)
    requires Below(v, top) && x.height <= top < x.height + capacity
    requires forall i :: 0 <= i < |rs| ==> rs[i].height <= top && (rs[i].height == x.height ==> rs[i] == x)
    ensures Below(PutAll(v, rs, capacity), top)
    ensures Has(v, x) || x in rs ==> Has(PutAll(v, rs, capacity), x)
    decreases |rs|
  {
    hide Put, Has, Below;
    if rs != [] {
      var init, r := rs[..|rs| - 1], rs[|rs| - 1];
      PutAllKeeps(v, init, capacity, top, x);
      PutStaysBelow(PutAll(v, init, capacity), r, capacity, top);
      if Has(v, x) || x in rs {
        assert rs == init + [r];
        PutKeepsHigh(PutAll(v, init, capacity), r, capacity, top, x);
      }
    }
  }

  // ---- What a walk loads ------------------------------------------------------------------------------------------

  /** The records of a walk that the cache lacks. */
  function MissingOf(w: Source, cached: set<Hash>, walk: seq<Hash>): seq<Record> {
    if walk == [] then []
    else
      var last := walk[|walk| - 1];
      MissingOf(w, cached, walk[..|walk| - 1]) + if last in cached then [] else [w(last)]
  }

  lemma {:induction false} MissingIs(w: Source, cached: set<Hash>, walk: seq<Hash>, r: Record)
    requires Sealed(w)
    ensures r in MissingOf(w, cached, walk) <==> r.hash in walk && r.hash !in cached && r == w(r.hash)
    decreases |walk|
  {
    if walk != [] {
      var init, last := walk[..|walk| - 1], walk[|walk| - 1];
      MissingIs(w, cached, init, r);
      assert walk == init + [last];
      assert w(last).hash == last;
    }
  }

  lemma MissingNone(w: Source, cached: set<Hash>, walk: seq<Hash>)
    requires Sealed(w)
    ensures MissingOf(w, cached, walk) == [] <==> forall h :: h in walk ==> h in cached
  {
    var missing := MissingOf(w, cached, walk);
    if missing == [] {
      forall h | h in walk
        ensures h in cached
      {
        MissingIs(w, cached, walk, w(h));
        assert w(h).hash == h;
      }
    } else {
      MissingIs(w, cached, walk, missing[0]);
    }
  }

  /** No cached height exceeds the tip's, and the store's links are consecutive. */
  ghost predicate Settled(w: Source, store: set<Hash>, v: Window, tip: Hash) {
    Consecutive(w, store) && Below(v, w(tip).height)
  }

  lemma WalkPlaces(w: Source, store: set<Hash>, tip: Hash, n: nat, h: Hash)
    requires Consecutive(w, store) && h in StoreWalk(w, store, tip, n)
    ensures h in store && w(h).height <= w(tip).height < w(h).height + n
    ensures forall g :: g in StoreWalk(w, store, tip, n) && w(g).height == w(h).height ==> g == h
  {
    var walk := StoreWalk(w, store, tip, n);
    var i :| 0 <= i < |walk| && walk[i] == h;
    WalkHeights(w, store, tip, 0, n, i);
    forall g | g in walk && w(g).height == w(h).height
      ensures g == h
    {
      var j :| 0 <= j < |walk| && walk[j] == g;
      WalkHeights(w, store, tip, 0, n, j);
    }
  }

  /** After loading what was missing, the whole walk is cached. */
  lemma LoadCovers(w: Source, store: set<Hash>, ix: Index, tip: Hash, n: nat, capacity: nat, rs: seq<Record>, h: Hash)
    requires Sealed(w) && Agree(ix) && Within(w, store, Contents(ix)) && Settled(w, store, Contents(ix), tip)
    requires n <= capacity && h in StoreWalk(w, store, tip, n)
    requires forall r :: r in rs ==> r.hash in StoreWalk(w, store, tip, n) && r == w(r.hash)
    requires h in ix.byHash || w(h) in rs
    ensures Has(PutAll(Contents(ix), rs, capacity), w(h))
  {
    WalkPlaces(w, store, tip, n, h);
    hide PutAll, StoreWalk, Consecutive;
    forall i | 0 <= i < |rs|
      ensures rs[i].height <= w(tip).height && (rs[i].height == w(h).height ==> rs[i] == w(h))
    {
      WalkPlaces(w, store, tip, n, rs[i].hash);
    }
    if h in ix.byHash {
      CachedIsInWindow(ix, h);
      CachedIsGenuine(w, store, ix, h);
    }
    PutAllKeeps(Contents(ix), rs, capacity, w(tip).height, w(h));
  }

  lemma HasIsCached(ix: Index, r: Record)
    requires Agree(ix) && Has(Contents(ix), r)
    ensures r.hash in ix.byHash
  {
    CachedIsInWindow(ix, r.hash);
  }

  // ---- The repair and the warm-up ---------------------------------------------------------------------------------

  function RepairBound(c: Constants, height: nat, capacity: nat): nat
    requires Sane(c)
  {
    Min(DifficultyRecordDepth(c, SaturatingSub(height, 1)) + 2 * c.maxSubSlotBlocks, capacity)
  }

  lemma BoundFits(c: Constants, height: nat, capacity: nat)
    requires Sane(c)
    ensures RepairBound(c, height, capacity) <= capacity
  {
  }

  /** The capacity never cuts a repair short when the cache has the size of the consensus window. */
  lemma RepairIsDeepEnough(c: Constants, height: nat, capacity: nat)
    requires Sane(c) && capacity >= ConsensusWalkWindow(c)
    ensures RepairBound(c, height, capacity) == DifficultyRecordDepth(c, SaturatingSub(height, 1)) + 2 * c.maxSubSlotBlocks
  {
    DepthFits(c, SaturatingSub(height, 1));
  }

  ghost predicate Covered(cached: set<Hash>, walk: seq<Hash>) {
    forall h :: h in walk ==> h in cached
  }

  /** Every cached record is the one its hash commits to, stored or not. */
  ghost predicate AllTrue(w: Source, v: Window) {
    forall h :: h in v ==> v[h] == w(v[h].hash)
  }

  /** What a repair can read: the store, and what the cache held when it started. */
  function Reach(store: set<Hash>, cached: map<Hash, Record>): set<Hash> {
    store + cached.Keys
  }

  lemma TrueIsWithin(w: Source, store: set<Hash>, ix: Index)
    requires Agree(ix) && AllTrue(w, Contents(ix))
    ensures Within(w, Reach(store, ix.byHash), Contents(ix))
  {
  }

  lemma WithinIsTrue(w: Source, reach: set<Hash>, ix: Index)
    requires Agree(ix) && Within(w, reach, Contents(ix))
    ensures AllTrue(w, Contents(ix)) && ix.byHash.Keys <= reach
  {
    forall x | x in ix.byHash
      ensures x in reach
    {
      CachedIsGenuine(w, reach, ix, x);
    }
  }

  /**
   Walk back from `tip`, reading the cache first and then the store, and collect what the cache lacked.
   The cache may hold records the store lacks, such as those of a window being staged.
   */
  method FetchMissing(cached: map<Hash, Record>, rows: map<Hash, Record>, tip: Hash, bound: nat, ghost w: Source)
    returns (fetched: seq<Record>)
    requires forall h :: (h in cached ==> cached[h] == w(h)) && (h in rows ==> rows[h] == w(h))
    ensures fetched == MissingOf(w, cached.Keys, StoreWalk(w, Reach(rows.Keys, cached), tip, bound))
  {
    hide Walk, Midway, MissingOf;
    ghost var known := Held(Reach(rows.Keys, cached));
    fetched := [];
    var hash := tip;
    ghost var met: seq<Hash> := [];
    MidwayStart(w, known, tip, bound);
    NothingMissing(w, cached.Keys);
    var steps, stopped := 0, false;
    while steps < bound && !stopped
      invariant steps <= bound
      invariant if stopped then Walk(w, known, tip, 0, bound) == met else Midway(w, known, tip, bound, met, hash, steps)
      invariant fetched == MissingOf(w, cached.Keys, met)
      decreases bound - steps, !stopped
    {
      MidwayStep(w, known, tip, bound, met, hash, steps);
      MissingGrows(w, cached.Keys, met, hash);
      if hash !in cached && hash !in rows {
        stopped := true;
      } else {
        var rec := if hash in cached then cached[hash] else rows[hash];
        if hash !in cached {
          fetched := fetched + [rec];
        }
        met := met + [hash];
        stopped := rec.height == 0;
        hash := rec.prev;
        steps := steps + 1;
      }
    }
    if !stopped {
      MidwayStep(w, known, tip, bound, met, hash, steps);
    }
  }

  /** Load the ancestry of `tip` that a block at `height` can read into the cache. */
  method RepairWalkAncestry(cache: BlockRecordCache, rows: map<Hash, Record>, tip: Hash, height: nat, c: Constants, ghost w: Source)
    returns (loaded: nat)
    requires Sane(c) && cache.Valid() && Sealed(w) && AllTrue(w, cache.View()) && forall h :: h in rows ==> rows[h] == w(h)
    modifies cache
    ensures cache.Valid() && AllTrue(w, cache.View())
    ensures var reach := Reach(rows.Keys, old(cache.byHash));
            var walk := StoreWalk(w, reach, tip, RepairBound(c, height, cache.capacity));
            var missing := MissingOf(w, old(cache.byHash.Keys), walk);
            && cache.byHash.Keys <= reach
            && loaded == |missing| && cache.View() == PutAll(old(cache.View()), Reversed(missing), cache.capacity)
            && (loaded == 0 <==> Covered(old(cache.byHash.Keys), walk))
            && (Settled(w, reach, old(cache.View()), tip) ==>
                  Covered(cache.byHash.Keys, walk) && Settled(w, reach, cache.View(), tip))
  {
    hide Agree, Contents, Within, Walk, StoreWalk, PutAll, AllGenuine, MissingOf, Settled, Covered, RepairBound, Holds, Reversed,
         AllTrue;
    var bound := RepairBound(c, height, cache.capacity);
    BoundFits(c, height, cache.capacity);
    ghost var reach := Reach(rows.Keys, cache.byHash);
    ghost var walk := StoreWalk(w, reach, tip, bound);
    TrueIsWithin(w, rows.Keys, cache.Ix());
    TrueByHash(w, cache.Ix());
    var fetched := FetchMissing(cache.byHash, rows, tip, bound, w);
    loaded := |fetched|;
    RepairCovers(w, reach, cache.Ix(), tip, bound, cache.capacity, walk);
    MissingIsGenuine(w, reach, cache.byHash.Keys, tip, bound);
    FinishFetch(cache, fetched, w, reach);
    CoverFromWindow(w, reach, cache.Ix(), walk);
    WithinIsTrue(w, reach, cache.Ix());
  }

  lemma TrueByHash(w: Source, ix: Index)
    requires Agree(ix) && AllTrue(w, Contents(ix))
    ensures forall h :: h in ix.byHash ==> ix.byHash[h] == w(h)
  {
    forall h | h in ix.byHash
      ensures ix.byHash[h] == w(h)
    {
      CachedIsInWindow(ix, h);
    }
  }

  lemma {:induction false} WalkIsKnown(w: Source, store: set<Hash>, h: Hash, k: nat, n: nat, x: Hash)
    requires x in Walk(w, Held(store), h, k, n)
    ensures x in store
    decreases n
  {
    if x != h {
      WalkIsKnown(w, store, w(h).prev, k + 1, n - 1, x);
    }
  }

  lemma MissingIsGenuine(w: Source, reach: set<Hash>, cached: set<Hash>, tip: Hash, n: nat)
    requires Sealed(w)
    ensures AllGenuine(w, reach, MissingOf(w, cached, StoreWalk(w, reach, tip, n)))
  {
    var walk := StoreWalk(w, reach, tip, n);
    var missing := MissingOf(w, cached, walk);
    hide Walk;
    forall i | 0 <= i < |missing|
      ensures Genuine(w, reach, missing[i])
    {
      MissingIs(w, cached, walk, missing[i]);
      WalkIsKnown(w, reach, tip, 0, n, missing[i].hash);
    }
  }

  lemma NothingMissing(w: Source, cached: set<Hash>)
    ensures MissingOf(w, cached, []) == []
  {
  }

  lemma MissingGrows(w: Source, cached: set<Hash>, met: seq<Hash>, h: Hash)
    ensures MissingOf(w, cached, met + [h]) == if h in cached then MissingOf(w, cached, met) else MissingOf(w, cached, met) + [w(h)]
  {
    assert (met + [h])[..|met|] == met;
  }

  /** The window holds every record of a walk. */
  ghost predicate Holds(w: Source, v: Window, walk: seq<Hash>) {
    forall h :: h in walk ==> Has(v, w(h))
  }

  lemma RepairCovers(w: Source, store: set<Hash>, ix: Index, tip: Hash, n: nat, capacity: nat, walk: seq<Hash>)
    requires Sealed(w) && Agree(ix) && Within(w, store, Contents(ix)) && n <= capacity
    requires walk == StoreWalk(w, store, tip, n)
    ensures var missing := MissingOf(w, ix.byHash.Keys, walk);
            && (missing == [] <==> Covered(ix.byHash.Keys, walk))
            && (Settled(w, store, Contents(ix), tip) ==>
                  var v := PutAll(Contents(ix), Reversed(missing), capacity);
                  Holds(w, v, walk) && Settled(w, store, v, tip))
  {
    var cached := ix.byHash.Keys;
    var missing := MissingOf(w, cached, walk);
    MissingNone(w, cached, walk);
    if Settled(w, store, Contents(ix), tip) {
      var rs := Reversed(missing);
      hide PutAll, StoreWalk, Agree, Contents, Within, Settled, Has;
      forall r | r in rs
        ensures r.hash in walk && r == w(r.hash)
      {
        ReversedHas(missing, r);
        MissingIs(w, cached, walk, r);
      }
      forall h | h in walk
        ensures Has(PutAll(Contents(ix), rs, capacity), w(h))
      {
        MissingIs(w, cached, walk, w(h));
        assert w(h).hash == h;
        ReversedHas(missing, w(h));
        LoadCovers(w, store, ix, tip, n, capacity, rs, h);
      }
      StaysSettled(w, store, Contents(ix), tip, n, capacity, rs);
    }
  }

  lemma ReversedHas(rs: seq<Record>, r: Record)
    ensures r in Reversed(rs) <==> r in rs
  {
    if r in rs {
      var i :| 0 <= i < |rs| && rs[i] == r;
      assert Reversed(rs)[|rs| - 1 - i] == r;
    }
  }

  lemma StaysSettled(w: Source, store: set<Hash>, v: Window, tip: Hash, n: nat, capacity: nat, rs: seq<Record>)
    requires Settled(w, store, v, tip)
    requires forall r :: r in rs ==> r.hash in StoreWalk(w, store, tip, n) && r == w(r.hash)
    ensures Settled(w, store, PutAll(v, rs, capacity), tip)
  {
    forall r | r in rs
      ensures r.height <= w(tip).height
    {
      WalkPlaces(w, store, tip, n, r.hash);
    }
    PutAllStaysBelow(v, rs, capacity, w(tip).height);
  }

  lemma {:induction false} PutAllStaysBelow(v: Window, rs: seq<Record>, capacity: nat, top: nat)
    requires Below(v, top) && forall r :: r in rs ==> r.height <= top
    ensures Below(PutAll(v, rs, capacity), top)
    decreases |rs|
  {
    hide Put, Below;
    if rs != [] {
      PutAllStaysBelow(v, rs[..|rs| - 1], capacity, top);
      PutStaysBelow(PutAll(v, rs[..|rs| - 1], capacity), rs[|rs| - 1], capacity, top);
    }
  }

  lemma CoverFromWindow(w: Source, store: set<Hash>, ix: Index, walk: seq<Hash>)
    requires Sealed(w) && Agree(ix)
    ensures Holds(w, Contents(ix), walk) ==> Covered(ix.byHash.Keys, walk)
  {
    if Holds(w, Contents(ix), walk) {
      forall h | h in walk
        ensures h in ix.byHash.Keys
      {
        HasIsCached(ix, w(h));
        assert w(h).hash == h;
      }
    }
  }

  /** A second repair finds nothing to load. */
  method RepairTwice(cache: BlockRecordCache, rows: map<Hash, Record>, tip: Hash, height: nat, c: Constants, ghost w: Source)
    returns (first: nat, second: nat)
    requires Sane(c) && cache.Valid() && Sealed(w) && AllTrue(w, cache.View()) && forall h :: h in rows ==> rows[h] == w(h)
    modifies cache
    ensures cache.Valid() && AllTrue(w, cache.View())
    ensures Settled(w, Reach(rows.Keys, old(cache.byHash)), old(cache.View()), tip) ==> second == 0
  {
    hide Agree, Contents, StoreWalk, Settled, Covered, AllTrue, Reach, PutAll, MissingOf, Reversed;
    ghost var before := cache.byHash;
    first := RepairWalkAncestry(cache, rows, tip, height, c, w);
    ReachShrinks(w, rows.Keys, before, cache.byHash, tip, RepairBound(c, height, cache.capacity));
    second := RepairWalkAncestry(cache, rows, tip, height, c, w);
  }

  /** The second walk is no longer than the first: an insert may only have dropped records the store lacks. */
  lemma ReachShrinks(w: Source, store: set<Hash>, before: map<Hash, Record>, cached: map<Hash, Record>, tip: Hash, n: nat)
    requires cached.Keys <= Reach(store, before)
    ensures Covered(cached.Keys, StoreWalk(w, Reach(store, before), tip, n)) ==>
              Covered(cached.Keys, StoreWalk(w, Reach(store, cached), tip, n))
  {
    WalkGrows(w, Reach(store, cached), Reach(store, before), tip, 0, n);
  }

  /** Refill the cache from the peak down, up to its capacity. */
  method WarmCacheFromStore(cache: BlockRecordCache, w: Source, store: set<Hash>, peak: Option<Hash>)
    returns (loaded: nat)
    requires cache.Valid() && Sealed(w) && Within(w, store, cache.View())
    modifies cache
    ensures cache.Valid() && Within(w, store, cache.View())
    ensures loaded == if peak.None? then 0 else |StoreWalk(w, store, peak.value, cache.capacity)|
    ensures peak.Some? && Settled(w, store, old(cache.View()), peak.value) ==>
              Covered(cache.byHash.Keys, StoreWalk(w, store, peak.value, cache.capacity))
  {
    if peak.None? {
      return 0;
    }
    hide Agree, Contents, Within, Walk, Midway, PutAll, Settled, Covered, RecordSeq, Holds, AllGenuine;
    var known, capacity := Held(store), cache.capacity;
    var hash := peak.value;
    ghost var met: seq<Hash> := [];
    ghost var v := cache.View();
    MidwayStart(w, known, peak.value, capacity);
    NothingPut(w, v, capacity);
    loaded := 0;
    var stopped := false;
    while loaded < capacity && !stopped
      invariant loaded == |met| <= capacity && cache.Valid() && Within(w, store, cache.View())
      invariant if stopped then Walk(w, known, peak.value, 0, capacity) == met
                else Midway(w, known, peak.value, capacity, met, hash, loaded)
      invariant cache.View() == PutAll(v, RecordSeq(w, met), capacity)
      decreases capacity - loaded, !stopped
    {
      MidwayStep(w, known, peak.value, capacity, met, hash, loaded);
      if hash !in store {
        stopped := true;
      } else {
        var record := w(hash);
        OneGenuine(w, store, hash);
        InsertAll(cache, [record], w, store);
        PutMore(w, v, met, hash, capacity);
        met := met + [hash];
        loaded := loaded + 1;
        stopped := record.height == 0;
        hash := record.prev;
      }
    }
    if !stopped {
      MidwayStep(w, known, peak.value, capacity, met, hash, loaded);
    }
    WarmCovers(w, store, old(cache.Ix()), peak.value, capacity, met);
    CoverFromWindow(w, store, cache.Ix(), met);
  }

  function RecordSeq(w: Source, walk: seq<Hash>): seq<Record> {
    seq(|walk|, i requires 0 <= i < |walk| => w(walk[i]))
  }

  lemma NothingPut(w: Source, v: Window, capacity: nat)
    ensures PutAll(v, RecordSeq(w, []), capacity) == v
  {
  }

  lemma OneGenuine(w: Source, store: set<Hash>, h: Hash)
    requires Sealed(w) && h in store
    ensures AllGenuine(w, store, [w(h)])
  {
    assert w(h).hash == h;
  }

  lemma PutMore(w: Source, v: Window, met: seq<Hash>, h: Hash, capacity: nat)
    ensures PutAll(PutAll(v, RecordSeq(w, met), capacity), [w(h)], capacity) == PutAll(v, RecordSeq(w, met + [h]), capacity)
  {
    hide Put;
    var rs, more := RecordSeq(w, met), RecordSeq(w, met + [h]);
    assert more == rs + [w(h)];
    assert more[..|more| - 1] == rs;
    assert [w(h)][..0] == [];
  }

  lemma WarmCovers(w: Source, store: set<Hash>, ix: Index, peak: Hash, capacity: nat, walk: seq<Hash>)
    requires Sealed(w) && Agree(ix) && Within(w, store, Contents(ix)) && walk == StoreWalk(w, store, peak, capacity)
    ensures Settled(w, store, Contents(ix), peak) ==> Holds(w, PutAll(Contents(ix), RecordSeq(w, walk), capacity), walk)
  {
    if Settled(w, store, Contents(ix), peak) {
      var rs := RecordSeq(w, walk);
      hide PutAll, StoreWalk, Agree, Contents, Within, Settled, Has;
      forall r | r in rs
        ensures r.hash in walk && r == w(r.hash)
      {
        var i :| 0 <= i < |rs| && rs[i] == r;
        assert w(walk[i]).hash == walk[i];
      }
      forall h | h in walk
        ensures Has(PutAll(Contents(ix), rs, capacity), w(h))
      {
        var i :| 0 <= i < |walk| && walk[i] == h;
        assert rs[i] == w(h);
        LoadCovers(w, store, ix, peak, capacity, capacity, rs, h);
      }
    }
  }
}
