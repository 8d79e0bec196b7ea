/**
 When the record cache mirrors the archive that staging sees. Admission reads a staged parent only
 from the cache, which keeps one record a height and evicts the lowest when it is full.
 */
module CacheMirror {
  import opened Coins
  import opened Archive
  import opened BodyRules
  import opened MainChain
  import opened RecordCache
  import opened RecordWindow
  import opened BlockAdmission
  import RecordRepair
  import RecordWalk

  /** An insert drops this record: another one takes its height, or it is the lowest of a full cache. */
  ghost predicate Displaced(v: Window, r: BlockRecord, capacity: nat, x: BlockRecord) {
    var u := v[r.height := r];
    (x.height == r.height && x != r) || (|u.Keys| > capacity && x.height == Lowest(u.Keys))
  }

  lemma PutHas(v: Window, r: BlockRecord, capacity: nat, x: BlockRecord)
    ensures RecordRepair.Has(Put(v, r, capacity), x) <==> (x == r || RecordRepair.Has(v, x)) && !Displaced(v, r, capacity, x)
  {
    hide Lowest;
  }

  lemma CachedIsHeld(w: World, ix: Index, h: Hash)
    requires Agree(ix) && GoodCache(w, ix.byHash) && w(h).hash == h
    ensures h in ix.byHash <==> RecordRepair.Has(Contents(ix), RecordOf(w(h)))
  {
    hide Agree, Contents, RecordOf;
    RecordFields(w(h));
    CachedIsInWindow(ix, h);
  }

  lemma GoodCacheAfter(w: World, before: Index, after: Index, b: Block, capacity: nat)
    requires Agree(before) && Agree(after) && Contents(after) == Put(Contents(before), RecordOf(b), capacity)
    requires GoodCache(w, before.byHash) && w(b.hash) == b
    ensures GoodCache(w, after.byHash)
  {
    hide Agree, Contents, RecordOf, Put;
    RecordFields(b);
    forall h | h in after.byHash
      ensures after.byHash[h] == RecordOf(w(h)) && w(h).hash == h
    {
      PutKeys(before, after, RecordOf(b), capacity, h);
    }
  }

  /** After an insert a record is cached exactly when it is new or was cached, and is not displaced. */
  lemma CachedAfter(w: World, before: Index, after: Index, b: Block, capacity: nat, h: Hash)
    requires Agree(before) && Agree(after) && Contents(after) == Put(Contents(before), RecordOf(b), capacity)
    requires GoodCache(w, before.byHash) && w(b.hash) == b && w(h).hash == h
    ensures h in after.byHash <==>
              (h == b.hash || h in before.byHash) && !Displaced(Contents(before), RecordOf(b), capacity, RecordOf(w(h)))
  {
    hide Agree, Contents, RecordOf, Put, RecordRepair.Has, GoodCache, Displaced;
    RecordFields(b);
    RecordFields(w(h));
    GoodCacheAfter(w, before, after, b, capacity);
    CachedIsHeld(w, before, h);
    CachedIsHeld(w, after, h);
    PutHas(Contents(before), RecordOf(b), capacity, RecordOf(w(h)));
  }

  /** A run of inserts drops this record: one displaces it and no later one brings it back. */
  ghost predicate Dropped(v: Window, rs: seq<BlockRecord>, capacity: nat, x: BlockRecord)
    decreases |rs|
  {
    rs != [] &&
    var init, r := rs[..|rs| - 1], rs[|rs| - 1];
    Displaced(PutAll(v, init, capacity), r, capacity, x) || (x != r && Dropped(v, init, capacity, x))
  }

  lemma {:induction false} PutAllHas(v: Window, rs: seq<BlockRecord>, capacity: nat, x: BlockRecord)
    ensures RecordRepair.Has(PutAll(v, rs, capacity), x) <==>
              (RecordRepair.Has(v, x) || x in rs) && !Dropped(v, rs, capacity, x)
    decreases |rs|
  {
    hide Put, Displaced, RecordRepair.Has;
    if rs != [] {
      var init, r := rs[..|rs| - 1], rs[|rs| - 1];
      PutAllHas(v, init, capacity, x);
      PutHas(PutAll(v, init, capacity), r, capacity, x);
      assert rs == init + [r];
    }
  }

  /** The records inserted while one block is staged: what its derivation loaded, then its own. */
  ghost predicate Staging(w: World, s: Store, loaded: seq<BlockRecord>, b: Block) {
    && w(b.hash) == b
    && (forall r {:trigger r in loaded} :: r in loaded ==>
          r.hash in s.records && w(r.hash).hash == r.hash && r == RecordOf(w(r.hash)))
  }

  /** The cache after staging holds true records only: those it held, the loaded ones, and the block's. */
  lemma {:induction false} CachedAfterAll(w: World, s: Store, before: Index, after: Index, loaded: seq<BlockRecord>, b: Block,
                                          capacity: nat, h: Hash)
    requires Agree(before) && Agree(after) && Contents(after) == PutAll(Contents(before), loaded + [RecordOf(b)], capacity)
    requires GoodCache(w, before.byHash) && Staging(w, s, loaded, b) && GoodCache(w, after.byHash) && w(h).hash == h
    ensures h in after.byHash <==>
              && (h == b.hash || h in before.byHash || RecordOf(w(h)) in loaded)
              && !Dropped(Contents(before), loaded + [RecordOf(b)], capacity, RecordOf(w(h)))
  {
    hide Agree, Contents, RecordOf, PutAll, GoodCache, Dropped, RecordRepair.Has;
    RecordFields(b);
    RecordFields(w(h));
    CachedIsHeld(w, before, h);
    CachedIsHeld(w, after, h);
    PutAllHas(Contents(before), loaded + [RecordOf(b)], capacity, RecordOf(w(h)));
  }

  /**
   Staging a block keeps the mirror exactly when its inserts drop no record that is not durable yet:
   those of the repair during its derivation, and its own.
   */
  lemma StagingKeepsMirror(w: World, s: Store, before: Index, after: Index, view: Store, b: Block, loaded: seq<BlockRecord>,
                           capacity: nat)
    requires Agree(before) && Agree(after) && Contents(after) == PutAll(Contents(before), loaded + [RecordOf(b)], capacity)
    requires GoodCache(w, before.byHash) && GoodCache(w, after.byHash) && GoodArchive(w, view)
    requires Mirrors(s, before.byHash, view) && s.records.Keys <= view.records.Keys && Staging(w, s, loaded, b)
    ensures Mirrors(s, after.byHash, Persist(view, b)) <==>
              forall h :: h in Persist(view, b).records && h !in s.records ==>
                            !Dropped(Contents(before), loaded + [RecordOf(b)], capacity, RecordOf(w(h)))
  {
    hide Agree, Contents, RecordOf, GoodCache, Dropped, GoodRows, PutAll;
    RecordFields(b);
    var t := Persist(view, b);
    assert t.records.Keys == view.records.Keys + {b.hash};
    forall h | h in t.records || h in after.byHash
      ensures h in after.byHash ==> h in t.records
      ensures h in t.records && h !in s.records ==>
                (h in after.byHash <==> !Dropped(Contents(before), loaded + [RecordOf(b)], capacity, RecordOf(w(h))))
    {
      MirrorAt(w, s, before, after, view, b, loaded, capacity, h);
    }
  }

  lemma MirrorAt(w: World, s: Store, before: Index, after: Index, view: Store, b: Block, loaded: seq<BlockRecord>, capacity: nat,
                 h: Hash)
    requires Agree(before) && Agree(after) && Contents(after) == PutAll(Contents(before), loaded + [RecordOf(b)], capacity)
    requires GoodCache(w, before.byHash) && GoodCache(w, after.byHash) && GoodArchive(w, view)
    requires Mirrors(s, before.byHash, view) && s.records.Keys <= view.records.Keys && Staging(w, s, loaded, b)
    requires h in view.records || h == b.hash || h in after.byHash
    ensures h in after.byHash ==> h in view.records || h == b.hash
    ensures (h in view.records || h == b.hash) && h !in s.records ==>
              (h in after.byHash <==> !Dropped(Contents(before), loaded + [RecordOf(b)], capacity, RecordOf(w(h))))
  {
    hide Agree, Contents, RecordOf, Dropped, GoodRows, PutAll;
    assert h in view.records ==> Linked(w, view.records.Keys, h);
    assert w(h).hash == h;
    RecordFields(w(h));
    CachedAfterAll(w, s, before, after, loaded, b, capacity, h);
  }

  /** A window of one block a height that fits in the cache, staged upwards, displaces none of its own records. */
  lemma WindowStaysCached(v: Window, r: BlockRecord, capacity: nat, x: BlockRecord)
    requires (forall h :: h in v ==> h <= r.height) && x.height < r.height < x.height + capacity && x.height in v
    ensures !Displaced(v, r, capacity, x) && !Displaced(v, r, capacity, r)
  {
    var u := v[r.height := r];
    if |u.Keys| > capacity {
      RecordRepair.RangeSize(u.Keys, Lowest(u.Keys), r.height + 1);
    }
  }

  /** With nothing cached above the parent, the repair drops no record of the ancestry it walks. */
  lemma RepairKeepsAncestry(source: RecordWalk.Source, reach: set<Hash>, ix: Index, tip: Hash, n: nat, capacity: nat, h: Hash)
    requires RecordWalk.Sealed(source) && Agree(ix) && Within(source, reach, Contents(ix)) && n <= capacity
    requires RecordRepair.Settled(source, reach, Contents(ix), tip) && h in RecordWalk.StoreWalk(source, reach, tip, n)
    ensures var walk := RecordWalk.StoreWalk(source, reach, tip, n);
            !Dropped(Contents(ix), Reversed(RecordRepair.MissingOf(source, ix.byHash.Keys, walk)), capacity, source(h))
  {
    hide Agree, Contents, Within, RecordRepair.Settled, RecordWalk.StoreWalk, Dropped, PutAll, RecordRepair.MissingOf, Reversed,
         RecordRepair.Has;
    var walk := RecordWalk.StoreWalk(source, reach, tip, n);
    RecordRepair.RepairCovers(source, reach, ix, tip, n, capacity, walk);
    PutAllHas(Contents(ix), Reversed(RecordRepair.MissingOf(source, ix.byHash.Keys, walk)), capacity, source(h));
  }

  /** A record above everything cached is kept. */
  lemma NewestStays(v: Window, r: BlockRecord, capacity: nat)
    requires capacity > 0 && forall h :: h in v ==> h < r.height
    ensures !Displaced(v, r, capacity, r)
  {
    var u := v[r.height := r];
    assert Lowest(u.Keys) == r.height ==> u.Keys == {r.height};
  }
}
