/**
 Short histories that show where a promise of the engine ends: a window that is dropped leaves its
 records in the cache, a sibling takes a staged record's place, and a chain started above a block that
 pays rewards lacks those coins, until a reorg forks below that block.
 */
module Scenarios {
  import opened Coins
  import opened CoinTable
  import opened Chain
  import opened Archive
  import opened MainChain
  import opened ForkChoice
  import opened LedgerLaw
  import opened LedgerStart
  import opened BranchWalk
  import opened BodyRules
  import opened ChainEngine
  import opened Confirmation
  import opened BlockAdmission
  import opened WindowDrain
  import opened Engine
  import CacheMirror
  import opened HeaderWalk
  import RecordCache
  import RecordRepair

  const GENESIS: Block := Block(1, GENESIS_CHALLENGE, 0, 1, 0, 0, None, Some(TxBody(0, 0, [], 0, 0, [])))
  /** A transaction block that claims the rewards of genesis, and a block on top of it. */
  const PAYER: Block := Block(2, 1, 1, 2, 0, 0, None, Some(TxBody(1, 1, [PoolCoin(GENESIS), FarmerCoin(GENESIS, 0)], 0, 0, [])))
  const UPPER: Block := Block(3, 2, 2, 3, 0, 0, None, None)
  /** Two siblings above genesis, and a child of the first. */
  const FIRST: Block := Block(4, 1, 1, 2, 0, 0, None, None)
  const CHILD: Block := Block(5, 4, 2, 4, 0, 0, None, None)
  const SIBLING: Block := Block(6, 1, 1, 2, 0, 0, None, None)

  /** The blocks of the scenarios by hash; no other hash is used. */
  function Toy(h: Hash): Block {
    if h == 2 then PAYER
    else if h == 3 then UPPER
    else if h == 4 then FIRST
    else if h == 5 then CHILD
    else if h == 6 then SIBLING
    else GENESIS
  }

  lemma ToyHeaders()
    ensures HeaderOk(Toy, GENESIS) && HeaderOk(Toy, FIRST) && HeaderOk(Toy, CHILD) && HeaderOk(Toy, SIBLING)
  {
    assert Tip(Toy, 1) == [GENESIS];
    assert Tip(Toy, 4) == [GENESIS, FIRST];
  }

  // ---- A chain started too high -----------------------------------------------------------------------------

  lemma ArchivedIsGood(w: World, s: Store, b: Block)
    requires GoodStore(w, s) && s.peak.None? && Fits(w, s, b)
    ensures GoodStore(w, Persist(s, b))
  {
    hide Shaped, Vetted, CoinRules, HeaderBinds, ParentStored;
    PersistIsShaped(w, s, b);
    PersistIsVetted(w, s, b);
    GrewIsReplayed(w, s, Persist(s, b));
  }

  lemma PayerFits()
    ensures Fits(Toy, Persist(EMPTY_STORE, GENESIS), PAYER)
  {
    assert Tip(Toy, 1) == [GENESIS];
    var chain, tx := [GENESIS], PAYER.body.value;
    assert LastTx(chain) == 0 && ClaimedTo(chain) == -1;
    var pool, farmer := Id(PoolCoin(GENESIS)), Id(FarmerCoin(GENESIS, 0));
    assert ExpectedClaims(chain) == {pool, farmer};
    assert ClaimNames(tx.claims) == {pool, farmer} by {
      assert PoolCoin(GENESIS) in tx.claims && FarmerCoin(GENESIS, 0) in tx.claims;
    }
    assert Removals(PAYER) == [] && Children(tx.spends) == [];
  }

  /**
   The coin table is the replay only if the first block confirmed is fit to be first: with the payer of
   genesis' rewards archived below it, confirming the block above starts a chain without those coins.
   */
  lemma StartedTooHigh()
    ensures var s := Persist(Persist(Persist(EMPTY_STORE, GENESIS), PAYER), UPPER);
            var t := Step(Toy, s, UPPER.hash);
            && GoodStore(Toy, s) && s.peak.None? && UPPER.hash in s.bodies && !First(Toy, s, UPPER.hash)
            && t.coins == map[] && Id(PoolCoin(GENESIS)) in Replay(Tip(Toy, t.peak.value.hash)) && !GoodStore(Toy, t)
  {
    hide *;
    HighArchive();
    UpperChain();
    UpperStep();
  }

  lemma HighArchive()
    ensures GoodStore(Toy, Persist(Persist(Persist(EMPTY_STORE, GENESIS), PAYER), UPPER))
  {
    hide GoodStore, CoinRules, RecordOf, ParentStored;
    var s1 := Persist(EMPTY_STORE, GENESIS);
    var s2 := Persist(s1, PAYER);
    EmptyIsGood();
    PlainGenesisFits(Toy, GENESIS);
    ArchivedIsGood(Toy, EMPTY_STORE, GENESIS);
    PayerFits();
    ArchivedIsGood(Toy, s1, PAYER);
    assert Fits(Toy, s2, UPPER);
    ArchivedIsGood(Toy, s2, UPPER);
  }

  lemma UpperStep()
    requires Tip(Toy, 3) == [GENESIS, PAYER, UPPER] && LastTx(Tip(Toy, 3)[..2]) == 1 && Apply(map[], DeltaOf(UPPER)) == map[]
    requires GoodStore(Toy, Persist(Persist(Persist(EMPTY_STORE, GENESIS), PAYER), UPPER))
    ensures var s := Persist(Persist(Persist(EMPTY_STORE, GENESIS), PAYER), UPPER);
            var t := Step(Toy, s, UPPER.hash);
            && s.peak.None? && UPPER.hash in s.bodies && !First(Toy, s, UPPER.hash)
            && t.coins == map[] && t.peak == Some(Peak(3, 2)) && !GoodStore(Toy, t)
  {
    hide GoodStore, RecordOf, Tip, Apply, DeltaOf, Complete, HashesOf;
    FirstExactly(Toy, Persist(Persist(Persist(EMPTY_STORE, GENESIS), PAYER), UPPER), 3);
  }

  /** A reorg that forks below the payer restores the law: its branch holds none of the missing coins. */
  lemma ReorgRestores()
    ensures var low := Persist(Persist(Persist(EMPTY_STORE, GENESIS), PAYER), UPPER);
            var s := Persist(Persist(low, FIRST), CHILD);
            var t := Step(Toy, s, UPPER.hash);
            !Replayed(Toy, t) && !Fails(Toy, t, CHILD.hash) && GoodStore(Toy, Step(Toy, t, CHILD.hash))
  {
    hide GoodStore, Shaped, Vetted, Replayed, Step, Fails, Persist, Tip, StartedAt, Toy, LastTx;
    var s := WideArchive();
    UpperChain();
    WideStart(s);
    WideReorg(Step(Toy, s, 3));
  }

  lemma WideArchive() returns (s: Store)
    ensures s == Persist(Persist(Persist(Persist(Persist(EMPTY_STORE, GENESIS), PAYER), UPPER), FIRST), CHILD)
    ensures GoodStore(Toy, s) && s.peak.None? && s.bodies.Keys == {1, 2, 3, 4, 5}
  {
    hide GoodStore, CoinRules, RecordOf, ParentStored;
    HighArchive();
    var s3 := Persist(Persist(Persist(EMPTY_STORE, GENESIS), PAYER), UPPER);
    assert Fits(Toy, s3, FIRST);
    ArchivedIsGood(Toy, s3, FIRST);
    var s4 := Persist(s3, FIRST);
    assert Fits(Toy, s4, CHILD);
    ArchivedIsGood(Toy, s4, CHILD);
    s := Persist(s4, CHILD);
  }

  lemma WideStart(s: Store)
    requires GoodStore(Toy, s) && s.peak.None? && s.bodies.Keys == {1, 2, 3, 4, 5}
    requires Tip(Toy, 3) == [GENESIS, PAYER, UPPER] && LastTx(Tip(Toy, 3)[..2]) == 1
    ensures var t := Step(Toy, s, 3);
            && Shaped(Toy, t) && Vetted(Toy, t) && StartedAt(Toy, t, 2) && !Replayed(Toy, t) && t.bodies == s.bodies
            && t.main == {1, 2, 3} && t.peak == Some(Peak(3, 2))
  {
    hide GoodArchive, Vetted, RecordOf, Tip, Apply, DeltaOf, Complete, StartedAt;
    StoredIsLinked(Toy, s, 3);
    LandIsShaped(Toy, s, 3);
    FirstStarts(Toy, s, 3);
    StartDecides(Toy, Land(Toy, s, 3), 2);
    assert HashesOf([GENESIS, PAYER, UPPER]) == {1, 2, 3} by {
      var c := [GENESIS, PAYER, UPPER];
      assert c[0] in c && c[1] in c && c[2] in c;
    }
  }

  lemma WideReorg(t: Store)
    requires Shaped(Toy, t) && Vetted(Toy, t) && StartedAt(Toy, t, 2) && t.bodies.Keys == {1, 2, 3, 4, 5}
    requires t.main == {1, 2, 3} && t.peak == Some(Peak(3, 2))
    ensures !Fails(Toy, t, 5) && GoodStore(Toy, Step(Toy, t, 5))
  {
    hide GoodArchive, Vetted, PeakFlags, RecordOf, Apply, DeltaOf, Onto, StartedAt, RollbackTo, HashesOf;
    ChildChain();
    var chain := Tip(Toy, 5);
    assert ForkOf(t.main, chain) == 0;
    assert Reachable(Toy, t, 5) by {
      forall i | 0 < i <= 2
        ensures StoredAt(Toy, t, 5, i)
      {
      }
    }
    ShapedIsGood(Toy, t);
    StoredIsLinked(Toy, t, 5);
    SwitchExactly(Toy, t, 5, 2);
    SwitchIsShaped(Toy, t, 5);
  }

  lemma ChildChain()
    ensures Tip(Toy, 5) == [GENESIS, FIRST, CHILD] && LastTx(Tip(Toy, 5)[..1]) == 0
    ensures Complete(Toy, {1, 2, 3, 4, 5}, 5, 2)
  {
    assert Tip(Toy, 1) == [GENESIS];
    assert Tip(Toy, 4) == [GENESIS, FIRST];
    assert Tip(Toy, 5)[..1] == [GENESIS];
  }

  lemma EmptyIsGood()
    ensures GoodStore(Toy, EMPTY_STORE)
  {
  }

  lemma UpperChain()
    ensures Tip(Toy, 3) == [GENESIS, PAYER, UPPER] && LastTx(Tip(Toy, 3)[..2]) == 1
    ensures Id(PoolCoin(GENESIS)) in Replay(Tip(Toy, 3))
    ensures Apply(map[], DeltaOf(UPPER)) == map[]
  {
    assert Tip(Toy, 1) == [GENESIS];
    assert Tip(Toy, 2) == [GENESIS, PAYER];
    assert Tip(Toy, 3)[..2] == [GENESIS, PAYER];
    PayerPays();
    UpperAddsNothing(Replay([GENESIS, PAYER]));
    UpperAddsNothing(map[]);
  }

  lemma UpperAddsNothing(t: Table)
    ensures Apply(t, DeltaOf(UPPER)).Keys == t.Keys
  {
    ApplyKeys(t, UPPER);
    assert Additions(UPPER) == [];
  }

  lemma PayerPays()
    ensures Id(PoolCoin(GENESIS)) in Replay([GENESIS, PAYER])
  {
    hide Apply;
    assert [GENESIS, PAYER][..1] == [GENESIS];
    ApplyKeys(Replay([GENESIS]), PAYER);
    assert Additions(PAYER)[0].coin == PoolCoin(GENESIS);
    assert Additions(PAYER)[0] in Additions(PAYER);
  }

  // ---- A block that failed its window ---------------------------------------------------------------------------

  /** The verdict of the deferred proofs: one block fails. */
  function Verdict(h: Hash): bool {
    h != FIRST.hash
  }

  /**
   A block that failed its window is archived with it. Its child, heavier than the peak and passing, is
   then confirmed by a reorg that brings the failed block onto the main chain.
   */
  lemma FailedBlockReturns()
    ensures var s := Persist(Persist(PeakAt(Toy, Persist(EMPTY_STORE, GENESIS), 1), FIRST), CHILD);
            && AllPassed(Verdict, s) && Verdict(CHILD.hash) && !Fails(Toy, s, CHILD.hash)
            && !BranchPassed(Toy, Verdict, s, CHILD.hash) && !AllPassed(Verdict, Step(Toy, s, CHILD.hash))
  {
    hide Replay, Apply, DeltaOf, Onto, RollbackTo, RecordOf;
    ChildChain();
    var s := Persist(Persist(PeakAt(Toy, Persist(EMPTY_STORE, GENESIS), 1), FIRST), CHILD);
    assert Tip(Toy, 1) == [GENESIS];
    var chain := [GENESIS, FIRST, CHILD];
    assert s.main == {1} by {
      assert [GENESIS][0] in [GENESIS];
    }
    assert ForkOf(s.main, chain) == 0;
    assert chain[1] in chain && chain[1].hash == FIRST.hash;
    assert Reachable(Toy, s, 5) by {
      forall i | 0 < i <= 2
        ensures StoredAt(Toy, s, 5, i)
      {
      }
    }
    assert FIRST.hash in HashesOf(chain);
    assert Step(Toy, s, 5).main == HashesOf(chain);
  }

  // ---- An engine on genesis ------------------------------------------------------------------------------------

  /** What the scenarios know of the engine between their steps. */
  ghost predicate OnGenesis(s: Store) {
    && s.records.Keys == {GENESIS.hash} && s.bodies.Keys == {GENESIS.hash} && s.main == {GENESIS.hash}
    && s.peak == Some(Peak(GENESIS.hash, 0))
  }

  lemma GenesisIsAdmitted(cached: Cached)
    ensures HeaderOk(Toy, GENESIS) && Fits(Toy, EMPTY_STORE, GENESIS)
    ensures Admits(Toy, EMPTY_STORE, cached, EMPTY_STORE, false, GENESIS)
    ensures Linked(Toy, EMPTY_STORE.records.Keys, GENESIS.hash)
  {
    hide Fits, Admits;
    ToyHeaders();
    PlainGenesisFits(Toy, GENESIS);
    EmptyIsGood();
    ClearIsExact(Toy, EMPTY_STORE, cached, EMPTY_STORE, false, GENESIS);
  }

  lemma GenesisLands()
    ensures var batch := Persist(EMPTY_STORE, GENESIS);
            OnGenesis(Step(Toy, batch, GENESIS.hash)) && !Fails(Toy, batch, GENESIS.hash) && First(Toy, batch, GENESIS.hash)
  {
    assert Tip(Toy, 1) == [GENESIS];
  }

  lemma NothingPending(horizon: nat)
    ensures Prune(PendingAfter(Toy, Persist(EMPTY_STORE, GENESIS), map[], DeltaOf(GENESIS)), 0, horizon) == map[]
  {
  }

  method Start(horizon: nat, window: nat, c: RecordRepair.Constants) returns (e: Engine)
    requires RecordRepair.Sane(c)
    ensures fresh(e) && fresh(e.cache) && e.w == Toy && e.Valid(e.store) && e.CacheGood()
    ensures OnGenesis(e.store) && e.pending == map[] && e.staged == map[] && e.cache.byHash.Keys <= {GENESIS.hash}
  {
    hide GoodStore, Admits, Fits, Persist, Step, Fails, First, OnGenesis, Linked, Prune, PendingAfter;
    EmptyIsGood();
    e := new Engine(Toy, horizon, c, window, EMPTY_STORE);
    GenesisIsAdmitted(map[]);
    GenesisLands();
    NothingPending(horizon);
    var r := e.AddBlock(GENESIS, Found);
  }

  // ---- A staged record in the cache ------------------------------------------------------------------------------

  lemma StagedFits(s: Store, cached: Cached, fullHistory: bool)
    requires OnGenesis(s)
    ensures HeaderOk(Toy, FIRST) && Fits(Toy, s, FIRST) && Admits(Toy, s, cached, s, fullHistory, FIRST)
    ensures Persist(s, FIRST).records.Keys == {GENESIS.hash, FIRST.hash}
    ensures FIRST.hash !in s.main && SIBLING.hash !in s.main && CHILD.hash !in s.main && s.peak.Some?
    ensures HeaderOk(Toy, SIBLING) && Fits(Toy, Persist(s, FIRST), SIBLING)
    ensures Admits(Toy, s, cached, Persist(s, FIRST), fullHistory, SIBLING)
    ensures HeaderOk(Toy, CHILD) && Fits(Toy, Persist(Persist(s, FIRST), SIBLING), CHILD)
  {
    ToyHeaders();
    hide HeaderOk;
    assert Joined(Toy, FIRST) && Joined(Toy, SIBLING);
  }

  /** The record just staged above everything cached is cached. */
  lemma NewestIsCached(before: RecordCache.Index, after: RecordCache.Index, capacity: nat)
    requires RecordCache.Agree(before) && RecordCache.Agree(after) && capacity > 0
    requires RecordCache.Contents(after) == RecordCache.Put(RecordCache.Contents(before), RecordOf(FIRST), capacity)
    requires GoodCache(Toy, before.byHash) && before.byHash.Keys <= {GENESIS.hash}
    ensures FIRST.hash in after.byHash
  {
    hide RecordCache.Put, CacheMirror.Displaced, RecordCache.Agree, RecordCache.Contents, GoodCache;
    CacheMirror.CachedAfter(Toy, before, after, FIRST, capacity, FIRST.hash);
    OnlyGenesisCached(before);
    CacheMirror.NewestStays(RecordCache.Contents(before), RecordOf(FIRST), capacity);
  }

  lemma OnlyGenesisCached(ix: RecordCache.Index)
    requires RecordCache.Agree(ix) && GoodCache(Toy, ix.byHash) && ix.byHash.Keys <= {GENESIS.hash}
    ensures forall h :: h in RecordCache.Contents(ix) ==> h == 0
  {
    forall h | h in RecordCache.Contents(ix)
      ensures h == 0
    {
      assert ix.byHeight[h] in ix.byHash;
    }
  }

  /** A second record at a height takes the first one's place. */
  lemma SiblingTakesThePlace(before: RecordCache.Index, after: RecordCache.Index, capacity: nat)
    requires RecordCache.Agree(before) && RecordCache.Agree(after)
    requires RecordCache.Contents(after) == RecordCache.Put(RecordCache.Contents(before), RecordOf(SIBLING), capacity)
    requires GoodCache(Toy, before.byHash)
    ensures FIRST.hash !in after.byHash
  {
    CacheMirror.CachedAfter(Toy, before, after, SIBLING, capacity, FIRST.hash);
  }

  lemma StrayIsAdmitted(s: Store, cached: Cached, fullHistory: bool)
    requires OnGenesis(s) && FIRST.hash in cached
    ensures HeaderOk(Toy, CHILD) && Admits(Toy, s, cached, s, fullHistory, CHILD)
    ensures !Linked(Toy, s.records.Keys, CHILD.hash) && Persist(s, CHILD).records.Keys == {GENESIS.hash, CHILD.hash}
    ensures !GoodArchive(Toy, Persist(s, CHILD)) && CHILD.weight > Toy(s.peak.value.hash).weight
  {
    ToyHeaders();
    hide HeaderOk;
    assert Joined(Toy, CHILD);
    hide GoodArchive;
    UnlinkedIsBroken(Toy, Persist(s, CHILD), CHILD);
  }

  /** A window that holds one block. */
  method StageFirst(horizon: nat, window: nat, c: RecordRepair.Constants) returns (e: Engine, view: Store)
    requires RecordRepair.Sane(c)
    ensures fresh(e) && fresh(e.cache) && e.w == Toy && e.Valid(view) && e.CacheGood()
    ensures OnGenesis(e.store) && e.pending == map[] && view == Persist(e.store, FIRST) && FIRST.hash in e.cache.byHash
  {
    hide Admits, Fits, Persist, Linked, HeaderOk, GoodArchive, RecordCache.Put, RecordCache.Agree, RecordCache.Contents, GoodCache,
         LogGood, LogShaped, ShapedView, Vetted, Toy, OnGenesis;
    e := Start(horizon, window, c);
    ghost var before := e.cache.Ix();
    StagedFits(e.store, e.cache.byHash, e.fullHistory);
    var staged, batch := e.StageBlock(FIRST, Found, None);
    NewestIsCached(before, e.cache.Ix(), e.cache.capacity);
    view := batch.value;
  }

  /** The window is dropped and its overlay cleared: its record stays cached. */
  method DropWindow(horizon: nat, window: nat, c: RecordRepair.Constants) returns (e: Engine)
    requires RecordRepair.Sane(c)
    ensures fresh(e) && fresh(e.cache) && e.w == Toy && e.Valid(e.store) && e.CacheGood()
    ensures OnGenesis(e.store) && e.pending == map[] && e.staged == map[] && FIRST.hash in e.cache.byHash
  {
    hide Persist, RecordCache.Agree, GoodCache, LogGood, LogShaped, ShapedView, Vetted, Toy, OnGenesis;
    var view;
    e, view := StageFirst(horizon, window, c);
    var none := e.ConfirmStagedBatch([], Some(view));
    e.ClearStagedOverlay(view);
  }

  /**
   A dropped window's record is still read: a child of the block it staged is admitted on the cached
   record, archived without a parent, and its reorg fails.
   */
  method DroppedWindow(horizon: nat, window: nat, c: RecordRepair.Constants) returns (e: Engine, r: Result<Outcome, NodeError>)
    requires RecordRepair.Sane(c)
    ensures e.w == Toy && r.Err?
    ensures CHILD.hash in e.store.records && FIRST.hash !in e.store.records && CHILD.hash in e.pending
    ensures !GoodArchive(Toy, e.store)
  {
    hide Admits, Fits, Persist, Linked, HeaderOk, GoodArchive, RecordCache.Put, RecordCache.Agree, RecordCache.Contents, GoodCache,
         LogGood, LogShaped, ShapedView, Vetted, Toy, Decided, Shaped;
    e := DropWindow(horizon, window, c);
    StrayIsAdmitted(e.store, e.cache.byHash, e.fullHistory);
    r := e.AddBlock(CHILD, Found);
  }

  /**
   A staged sibling takes a staged record's place in the cache, so the child of the first is refused
   as an orphan although it fits the archive the window would leave.
   */
  method ShadowedParent(horizon: nat, window: nat, c: RecordRepair.Constants)
    returns (e: Engine, view: Store, r: Result<Option<BlockDelta>, NodeError>)
    requires RecordRepair.Sane(c)
    ensures e.w == Toy && e.Valid(view) && Fits(Toy, view, CHILD) && CHILD.hash !in e.pending && CHILD.hash !in e.store.main
    ensures r == Err(UnknownParent)
  {
    hide Admits, Fits, Persist, Linked, HeaderOk, GoodArchive, RecordCache.Put, RecordCache.Agree, RecordCache.Contents, GoodCache,
         LogGood, LogShaped, ShapedView, Vetted;
    e, view := StageFirst(horizon, window, c);
    ghost var s, before := e.store, e.cache.Ix();
    StagedFits(s, e.cache.byHash, e.fullHistory);
    var staged, batch := e.StageBlock(SIBLING, Found, Some(view));
    SiblingTakesThePlace(before, e.cache.Ix(), e.cache.capacity);
    view := batch.value;
    r, batch := e.StageBlock(CHILD, Found, batch);
  }
}
