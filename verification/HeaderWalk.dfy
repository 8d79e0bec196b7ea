/**
 The header walks of record derivation, as far as they touch the record cache: they read ancestors
 from it, and on a miss the ancestry is loaded from the store once before the derivation is tried again.
 */
module HeaderWalk {
  import opened Coins
  import opened Archive
  import opened MainChain
  import opened BodyRules
  import RecordWalk
  import RecordCache
  import RecordWindow
  import RecordRepair

  /** How a derivation fares: it finds what it reads, or misses a record, and after the repair perhaps again. */
  datatype Derivation = Found | Missed(again: bool)

  ghost function RecordAt(w: World, h: Hash): (r: BlockRecord)
    ensures r.hash == h && (w(h).hash == h ==> r == RecordOf(w(h)))
  {
    RecordFields(w(h));
    if w(h).hash == h then RecordOf(w(h)) else BlockRecord(h, 0, 0, 0, 0, 0, None, None, None)
  }

  /** The record each hash commits to. */
  ghost function Records(w: World): (source: RecordWalk.Source)
    ensures RecordWalk.Sealed(source)
  {
    (h: Hash) => RecordAt(w, h)
  }

  /** What the cache lacks of the ancestry, as far as cache and store hold it unbroken. */
  ghost function Lacking(w: World, rows: set<Hash>, cached: Cached, tip: Hash, n: nat): seq<BlockRecord> {
    var source := Records(w);
    RecordRepair.MissingOf(source, cached.Keys, RecordWalk.StoreWalk(source, RecordRepair.Reach(rows, cached), tip, n))
  }

  /** The records a derivation puts in the cache, in order. */
  ghost function Loaded(w: World, rows: set<Hash>, cached: Cached, tip: Hash, n: nat, walk: Derivation): seq<BlockRecord> {
    if walk.Missed? then RecordWindow.Reversed(Lacking(w, rows, cached, tip, n)) else []
  }

  /** A derivation succeeds if it misses nothing, or the repair loads something and it then misses nothing. */
  ghost predicate Derives(w: World, rows: set<Hash>, cached: Cached, tip: Hash, n: nat, walk: Derivation) {
    walk.Missed? ==> !walk.again && Lacking(w, rows, cached, tip, n) != []
  }

  /** Every record loaded is durable, was not cached, and is the block's own. */
  lemma LoadedIsDurable(w: World, rows: set<Hash>, cached: Cached, tip: Hash, n: nat, walk: Derivation, r: BlockRecord)
    requires (forall h :: h in rows ==> w(h).hash == h) && GoodCache(w, cached) && r in Loaded(w, rows, cached, tip, n, walk)
    ensures r.hash in rows && r.hash !in cached && w(r.hash).hash == r.hash && r == RecordOf(w(r.hash))
  {
    hide RecordOf;
    var source, reach := Records(w), RecordRepair.Reach(rows, cached);
    var trail := RecordWalk.StoreWalk(source, reach, tip, n);
    RecordRepair.ReversedHas(Lacking(w, rows, cached, tip, n), r);
    RecordRepair.MissingIs(source, cached.Keys, trail, r);
    RecordRepair.WalkIsKnown(source, reach, tip, 0, n, r.hash);
  }

  lemma GoodIsTrue(w: World, ix: RecordCache.Index)
    requires RecordCache.Agree(ix) && GoodCache(w, ix.byHash)
    ensures RecordRepair.AllTrue(Records(w), RecordCache.Contents(ix))
  {
    hide RecordOf;
    var v := RecordCache.Contents(ix);
    forall h | h in v
      ensures v[h] == Records(w)(v[h].hash)
    {
      assert ix.byHash[ix.byHeight[h]].hash == ix.byHeight[h];
    }
  }

  lemma TrueIsGood(w: World, ix: RecordCache.Index)
    requires RecordCache.Agree(ix) && RecordRepair.AllTrue(Records(w), RecordCache.Contents(ix))
    requires forall x :: x in ix.byHash ==> w(x).hash == x
    ensures GoodCache(w, ix.byHash)
  {
    hide RecordOf, RecordCache.Agree, RecordCache.Contents;
    RecordRepair.TrueByHash(Records(w), ix);
  }

  lemma RowsAreTrue(w: World, s: Store)
    requires GoodArchive(w, s)
    ensures forall h :: h in s.records ==> w(h).hash == h && s.records[h] == Records(w)(h)
  {
    hide RecordOf;
    forall h | h in s.records
      ensures w(h).hash == h && s.records[h] == Records(w)(h)
    {
      assert GoodRows(w, s, h) && Linked(w, s.records.Keys, h);
    }
  }

  lemma NothingLoaded(v: RecordCache.Window, capacity: nat)
    ensures RecordWindow.PutAll(v, [], capacity) == v
  {
  }

  lemma KnownHashes(w: World, cached: Cached)
    requires GoodCache(w, cached)
    ensures forall h :: h in cached ==> w(h).hash == h
  {
  }
}
