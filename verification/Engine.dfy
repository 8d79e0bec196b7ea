/**
 The engine object: block admission, staging, fork choice, reorg and batched confirmation over one
 durable store, with the record cache and the pending and staged overlays kept in memory.

 `store` is the durable state; a batch is a copy of it that becomes durable when it is committed and
 is lost otherwise. The ghost `log` lists every durable state, so what holds of all of `log` holds
 after a crash between any two store steps.
 */
module Engine {
  import opened Arithmetic
  import opened Coins
  import opened CoinTable
  import opened Chain
  import opened Archive
  import opened MainChain
  import opened ForkChoice
  import opened BranchWalk
  import opened BodyRules
  import opened ChainEngine
  import opened WindowRun
  import opened Confirmation
  import opened WindowBatch
  import opened BlockAdmission
  import opened HeaderWalk
  import opened StagePreload
  import RecordCache
  import RecordRepair
  import RecordWindow

  class Engine {
    /** The block each hash commits to. */
    ghost const w: World
    const horizon: nat
    const constants: RecordRepair.Constants
    const cache: RecordCache.BlockRecordCache
    /** The store's phase: one transaction per block near the tip, one per window during catch-up. */
    var nearTip: bool
    var store: Store
    var pending: Deltas
    var staged: Deltas
    /** The read context of the window being staged. */
    var preload: Option<Preload>
    var fullHistory: bool
    /** Every durable state so far, the current one last. */
    ghost var log: seq<Store>

    /** Rows, flags and overlays are in order, in `view` as in every durable state. */
    ghost predicate Sturdy(view: Store)
      reads this
    {
      ShapedView(w, store, staged, pending, view) && LogShaped(w, log) && log != [] && log[|log| - 1] == store
    }

    /** In addition stored spends were validated, and every durable state obeys the ledger law. */
    ghost predicate Valid(view: Store)
      reads this
    {
      Sturdy(view) && LogGood(w, log) && Vetted(w, view)
    }

    /** The cache is consistent and holds only true records, archived or not. */
    ghost predicate CacheGood()
      reads cache
    {
      cache.Valid() && GoodCache(w, cache.byHash) && RecordRepair.Sane(constants)
    }

    /** Admission takes a block for one it has: pending, or confirmed as far as the staging context says. */
    ghost predicate Has(h: Hash)
      reads this
    {
      h in pending || ConfirmedBy(store, preload, h)
    }

    /** The records deriving a block's own record loads into the cache. */
    ghost function LoadedFor(block: Block, walk: Derivation): seq<BlockRecord>
      reads this, cache
      requires RecordRepair.Sane(constants)
    {
      Loaded(w, store.records.Keys, cache.byHash, block.prev,
             RecordRepair.RepairBound(constants, block.height, cache.capacity), walk)
    }

    ghost predicate DerivesFor(block: Block, walk: Derivation)
      reads this, cache
      requires RecordRepair.Sane(constants)
    {
      Derives(w, store.records.Keys, cache.byHash, block.prev,
              RecordRepair.RepairBound(constants, block.height, cache.capacity), walk)
    }

    /** An engine over a store, such as any durable state another engine left behind. */
    constructor (ghost world: World, horizon: nat, constants: RecordRepair.Constants, window: nat, s: Store)
      requires Shaped(world, s) && RecordRepair.Sane(constants)
      ensures Sturdy(store) && store == s && log == [s] && pending == map[] && staged == map[]
      ensures GoodStore(world, s) ==> Valid(store)
      ensures CacheGood() && cache.byHash == map[] && fresh(cache)
      ensures w == world && this.horizon == horizon && !nearTip && !fullHistory && preload == None
    {
      this.w, this.horizon, this.constants, nearTip, fullHistory, preload := world, horizon, constants, false, false, None;
      store, pending, staged, log := s, map[], map[], [s];
      cache := new RecordCache.BlockRecordCache(window);
      new;
      hide *;
      OpenedStore(w, s);
      ValidBy(store);
      SturdyIs(store);
    }

    lemma SturdyParts(view: Store)
      requires Sturdy(view)
      ensures ShapedView(w, store, staged, pending, view) && LogShaped(w, log) && log != [] && log[|log| - 1] == store
    {
      hide ShapedView, LogShaped;
    }

    lemma ValidParts(view: Store)
      requires Valid(view)
      ensures GoodStore(w, view) && LogGood(w, log)
    {
      hide GoodView, GoodStore, LogGood, Sturdy;
      ValidIsGood(view);
      GoodViewStores(w, store, staged, pending, view);
    }

    lemma SturdyIs(view: Store)
      ensures Sturdy(view) <==> && ShapedView(w, store, staged, pending, view) && LogShaped(w, log) && log != []
                                && log[|log| - 1] == store
    {
      hide ShapedView, LogShaped;
    }

    lemma SturdyBy(view: Store)
      requires ShapedView(w, store, staged, pending, view) && LogShaped(w, log) && log != [] && log[|log| - 1] == store
      ensures Sturdy(view)
    {
      hide ShapedView, LogShaped;
    }

    lemma ValidBy(view: Store)
      ensures Valid(view) <==> && ShapedView(w, store, staged, pending, view) && LogShaped(w, log) && log != []
                               && log[|log| - 1] == store && LogGood(w, log) && Vetted(w, view)
    {
      hide LogGood, Vetted, ShapedView, LogShaped;
    }

    lemma ValidExactly()
      requires Sturdy(store)
      ensures Valid(store) <==> LogGood(w, log) && Vetted(w, log[|log| - 1])
    {
      hide LogGood, Vetted, ShapedView, LogShaped;
    }

    lemma ValidIsGood(view: Store)
      requires Valid(view)
      ensures GoodView(w, store, staged, pending, view) && GoodStore(w, store)
    {
      hide ShapedView, Shaped, Vetted, Replayed;
      assert GoodStore(w, log[|log| - 1]);
    }

    // ---- The cache and the overlays ------------------------------------------------------------------------

    /** Put a true record in the cache. */
    method Remember(r: BlockRecord)
      requires CacheGood() && r == RecordOf(w(r.hash)) && w(r.hash).hash == r.hash
      modifies cache
      ensures CacheGood() && cache.View() == RecordCache.Put(old(cache.View()), r, cache.capacity)
      ensures cache.byHash.Keys <= old(cache.byHash.Keys) + {r.hash}
    {
      hide RecordOf, RecordCache.Agree, RecordCache.Contents, RecordCache.Put;
      cache.Insert(r);
    }

    /** Make a batch durable. */
    method Commit(batch: Store)
      modifies this`store, this`log
      ensures store == batch && log == old(log) + [batch]
    {
      store := batch;
      log := log + [batch];
    }

    method PrunePending(height: nat)
      modifies this`pending
      ensures pending == Prune(old(pending), height, horizon)
    {
      var floor := SaturatingSub(height, horizon);
      pending := map h | h in pending && pending[h].height >= floor :: pending[h];
    }

    method RemovePending(branch: seq<BlockDelta>)
      modifies this`pending
      ensures pending == old(pending) - HashSet(branch)
    {
      for i := 0 to |branch|
        invariant pending == old(pending) - HashSet(branch[..i])
      {
        HashSetStep(branch, i);
        pending := pending - {branch[i].hash};
      }
      assert branch[..|branch|] == branch;
    }

    /** The peak's weight: the cache first, then the store. */
    method PeakWeight() returns (weight: nat)
      requires Shaped(w, store) && store.peak.Some? && CacheGood()
      ensures weight == w(store.peak.value.hash).weight
    {
      hide RecordOf, Shaped;
      PeakRecord(w, store);
      var p := store.peak.value.hash;
      weight := if p in cache.byHash then cache.byHash[p].weight else store.records[p].weight;
    }

    // ---- Fork choice ------------------------------------------------------------------------------------------

    /**
     Reorg to a heavier branch. It succeeds exactly when the branch meets the main chain and is
     stored above the fork; then the one transaction it commits rolls back and reapplies. Otherwise
     the store is untouched, and the delta stays pending.
     */
    method Reorganize(d: BlockDelta) returns (r: Result<Outcome, NodeError>)
      requires store.main <= store.records.Keys && d == DeltaOf(w(d.hash))
      requires || (Sturdy(store) && Stored(w, store, d) && store.peak.Some? && Heavier(w, store, d.hash))
               || (d.prev !in store.records && d.prev !in pending && d.prev != d.hash)
      modifies this`store, this`pending, this`log
      ensures r.Err? ==> store == old(store) && log == old(log) && pending == old(pending)[d.hash := d]
      ensures old(Sturdy(store) && Stored(w, store, d) && store.peak.Some? && Heavier(w, store, d.hash)) ==>
                && (r.Ok? <==> Reachable(w, old(store), d.hash))
                && (r.Ok? ==> && store == Switch(w, old(store), d.hash) && log == old(log) + [store]
                              && pending == old(pending) - AboveFork(w, old(store), d.hash)
                              && var f := ForkOf(old(store).main, Tip(w, d.hash)); r.value == Reorg(f, w(d.hash).height - f))
      ensures d.prev !in old(store).records && d.prev !in old(pending) && d.prev != d.hash ==> r.Err?
    {
      hide Shaped, Complete, Tip, DeltaOf, LogShaped, DeltasAgree, AboveFork, HashSet, Switch, ForkOf, Reachable, Heavier;
      ghost var good := Sturdy(store) && Stored(w, store, d) && store.peak.Some? && Heavier(w, store, d.hash);
      if good {
        ReorgFacts(w, store, staged, pending, d);
      }
      hide ShapedView, BranchReady;
      DeltaFields(w(d.hash));
      ghost var before := pending;
      pending := pending[d.hash := d];
      var found := CandidateBranch(store, pending, d, w);
      if found.Err? {
        return Err(found.error);
      }
      var branch := found.value;
      var b, forkHeight, links := ReorgIn(store, d, branch, w);
      BranchHashes(w, store, d.hash, branch);
      Commit(b);
      RemovePending(branch);
      assert pending == before - AboveFork(w, old(store), d.hash);
      return Ok(Reorg(forkHeight, links));
    }

    /** The linear arms: coins, flags and peak in one commit. */
    method Advance(batch: Store, d: BlockDelta)
      requires Landable(w, batch, d) && d == DeltaOf(w(d.hash)) && d.hash in batch.records
      modifies this`store, this`pending, this`log
      ensures store.records == batch.records && store.bodies == batch.bodies
      ensures Shaped(w, batch) ==> store == Land(w, batch, d.hash)
      ensures !GoodArchive(w, batch) ==> store == Anchored(batch, d)
      ensures log == old(log) + [store] && pending == old(pending) - {d.hash}
    {
      hide Landable, Shaped, GoodArchive, Land, DeltaOf, Apply;
      var b := ExtendIn(batch, d, w);
      Commit(b);
      pending := pending - {d.hash};
    }

    /** The arms of fork choice, up to the point where the store and the overlay have changed. */
    method Choose(batch: Store, d: BlockDelta) returns (r: Result<Outcome, NodeError>)
      requires Sturdy(store) && CacheGood() && (Ready(w, store, batch, d) || Dangling(w, store, batch, d))
      modifies this`store, this`pending, this`log
      ensures store.records == batch.records && store.bodies == batch.bodies
      ensures Ready(w, old(store), batch, d) ==> Chosen(w, batch, d, horizon, r, store, old(pending), pending, old(log), log)
      ensures Dangling(w, old(store), batch, d) && old(store.peak.Some?) ==>
                && store == batch && log == old(log) + [batch]
                && pending == (if r.Ok? then Prune(old(pending)[d.hash := d], d.height, horizon) else old(pending)[d.hash := d])
                && (r.Ok? ==> r.value.Orphan?)
                && (r.Ok? <==> d.weight <= w(old(store).peak.value.hash).weight)
      ensures Dangling(w, old(store), batch, d) && old(store.peak.None?) ==>
                d.hash in batch.records && store == Anchored(batch, d) && r == Ok(NewPeak(d.height))
    {
      hide Shaped, Tip, DeltaOf, LogShaped, DeltasAgree, AboveFork, Land, Switch, Reachable, Landable, GoodArchive, RecordOf,
           GoodCache, Ready, Dangling, ForkOf, ShapedView, RecordCache.Agree;
      ConfirmStart(w, store, staged, pending, batch, d);
      if store.peak.None? {
        Advance(batch, d);
        return Ok(NewPeak(d.height));
      }
      var weight := PeakWeight();
      if d.weight <= weight {
        Commit(batch);
        pending := pending[d.hash := d];
        PrunePending(d.height);
        return Ok(Orphan(d.height));
      } else if d.prev == store.peak.value.hash {
        Advance(batch, d);
        return Ok(Extended(d.height));
      }
      if Ready(w, store, batch, d) {
        LogExtend(w, log, batch);
        StepKeepsRows(w, batch, d.hash);
      }
      Commit(batch);
      r := Reorganize(d);
    }

    /** After fork choice: the record is cached, a block that won leaves the overlay, and the overlay is pruned. */
    method Settle(d: BlockDelta, orphan: bool)
      requires CacheGood() && d.record == RecordOf(w(d.hash)) && d.record.hash == d.hash && w(d.hash).hash == d.hash
      modifies this`pending, cache
      ensures CacheGood() && cache.View() == RecordCache.Put(old(cache.View()), d.record, cache.capacity)
      ensures cache.byHash.Keys <= old(cache.byHash.Keys) + {d.hash}
      ensures pending == Prune(if orphan then old(pending) else old(pending) - {d.hash}, d.height, horizon)
    {
      hide RecordOf, GoodCache, Prune, RecordCache.Agree, RecordCache.Contents, RecordCache.Put;
      Remember(d.record);
      if !orphan {
        pending := pending - {d.hash};
      }
      PrunePending(d.height);
    }

    /**
     Fork choice for an archived block. On a batch in order, the outcome, the store and the overlay are
     those of `ForkChoice`; it fails exactly when the block wins but its branch cannot be replayed, and
     then only the archive rows are durable. Each durable state on the way is the batch's archive with
     the old ledger, or the final state, and all of them obey the ledger law exactly when there was a
     peak or the block is fit to be first. A row without an archived parent is made durable too.
     */
    method Confirm(batch: Store, d: BlockDelta) returns (r: Result<Outcome, NodeError>)
      requires Sturdy(store) && CacheGood() && (Ready(w, store, batch, d) || Dangling(w, store, batch, d))
      modifies this`store, this`pending, this`log, cache
      ensures CacheGood() && cache.byHash.Keys <= old(cache.byHash.Keys) + {d.hash}
      ensures cache.View() == if r.Ok? then RecordCache.Put(old(cache.View()), d.record, cache.capacity) else old(cache.View())
      ensures store.records == batch.records && store.bodies == batch.bodies
      ensures Ready(w, old(store), batch, d) ==>
                Sturdy(store) && Decided(w, batch, d, horizon, r, store, old(pending), pending, old(log), log)
      ensures Ready(w, old(store), batch, d) && old(LogGood(w, log)) && Vetted(w, batch) ==>
                (Valid(store) <==> MayStart(w, batch, d.hash))
      ensures Dangling(w, old(store), batch, d) && old(store.peak.Some?) ==>
                && store == batch && d.hash in pending && pending[d.hash] == d
                && (r.Ok? <==> d.weight <= w(old(store).peak.value.hash).weight)
      ensures Dangling(w, old(store), batch, d) && old(store.peak.None?) ==>
                d.hash in batch.records && store == Anchored(batch, d) && r == Ok(NewPeak(d.height))
    {
      hide Shaped, Tip, DeltaOf, LogShaped, LogGood, DeltasAgree, Landable, GoodArchive, RecordOf, GoodCache, Ready, Dangling,
           ShapedView, RecordCache.Put, RecordCache.Agree, RecordCache.Contents, Chosen, Decided, MayStart, Vetted, Prune,
           Heavier, Stored, Anchored;
      ghost var good, s, was, before := Ready(w, store, batch, d), store, pending, log;
      ConfirmStart(w, s, staged, pending, batch, d);
      r := Choose(batch, d);
      ghost var mid := pending;
      if r.Err? {
        if good {
          ConfirmEnd(w, s, staged, was, before, batch, d, horizon, r, store, mid, pending, log);
        }
        return;
      }
      Settle(d, r.value.Orphan?);
      if good {
        ConfirmEnd(w, s, staged, was, before, batch, d, horizon, r, store, mid, pending, log);
      } else if s.peak.Some? {
        PruneTwice(was[d.hash := d], d.height, horizon);
        PruneKeeps(was, d, horizon);
      }
    }

    // ---- Admission --------------------------------------------------------------------------------------------

    /** Full history is decided once: it was, or there is a peak, or this is genesis. */
    method CoinRulesEnforced(height: nat) returns (enforced: bool)
      requires Shaped(w, store)
      modifies this`fullHistory
      ensures enforced <==> Enforced(store, old(fullHistory), height)
      ensures fullHistory == (old(fullHistory) || enforced)
    {
      if fullHistory {
        return true;
      }
      FullHistory(w, store);
      enforced := if store.main == {} then height == 0 else exists h :: h in store.main && store.records[h].height == 0;
      if enforced {
        fullHistory := true;
      }
    }

    /** Read the staging context of a window: one read of its blocks' rows and of the peak. */
    method PreloadStageContext(blocks: seq<Block>)
      modifies this`preload
      ensures preload == Some(Snapshot(store, HashesOf(blocks)))
      ensures Shaped(w, store) ==> forall h :: Has(h) <==> h in pending || h in store.main
    {
      hide Shaped, Snapshot, ConfirmedBy, HashesOf;
      preload := Some(Snapshot(store, HashesOf(blocks)));
      if Shaped(w, store) {
        forall h
          ensures ConfirmedBy(store, preload, h) <==> h in store.main
        {
          ContextIsExact(w, store, store, HashesOf(blocks), h);
        }
      }
    }

    method ClearStagePreload()
      modifies this`preload
      ensures preload == None
    {
      preload := None;
    }

    /**
     The checks before a record is derived: not a block it has, its parent in the cache or the store, one
     above it with more weight, and for a transaction block the coin rules. `view` is the archive the open
     staging batch would leave.
     */
    method Vet(block: Block, ghost view: Store) returns (r: Result<Option<BlockDelta>, NodeError>)
      requires Valid(view) && CacheGood() && HeaderOk(w, block) && Attested(w, store, cache.byHash, block)
      modifies this`fullHistory
      ensures r == Ok(None) <==> old(Has(block.hash))
      ensures r.Ok? && r.value.Some? <==>
                !old(Has(block.hash)) && Admits(w, store, cache.byHash, view, old(fullHistory), block)
      ensures r.Ok? && r.value.Some? ==> r.value.value == DeltaOf(block)
      ensures r != Ok(None) && !ParentKnown(store, cache.byHash, block) ==> r == Err(UnknownParent)
      ensures old(fullHistory) ==> fullHistory
    {
      hide ShapedView, GoodView, Shaped, Vetted, LogShaped, LogGood, DeltaOf, RecordOf, GoodCache, Fits, Bound, RecordCache.Agree,
           RewardsPass, DeltaRules, OverlayRules, Traced, GoodArchive, FlagsAreAncestry, ConfirmedBy, Enforced, Clear, Tip,
           ParentStored, CoinRules, BirthsMatch;
      ValidIsGood(view);
      PrepareFacts(w, store, staged, pending, view, block);
      var confirmed := AlreadyConfirmed(store, preload, block.hash, w);
      if block.hash in pending || confirmed {
        return Ok(None);
      }
      if block.height > 0 {
        CachedRecord(w, cache.byHash, block.prev);
        if block.prev in cache.byHash || block.prev in store.records {
          var parent := if block.prev in cache.byHash then cache.byHash[block.prev] else store.records[block.prev];
          if block.height != parent.height + 1 || block.weight <= parent.weight {
            return Err(Invalid);
          }
        } else if store.peak.Some? {
          return Err(UnknownParent);
        }
      }
      if block.IsTx() {
        var enforced := CoinRulesEnforced(block.height);
        var rules := ValidateCoinRules(store, cache.byHash, staged, pending, block, enforced, w, view);
        RulesAreAdmission(w, store, cache.byHash, staged, pending, view, block, enforced, rules.Ok?);
        if rules.Err? {
          return Err(rules.error);
        }
      }
      return Ok(Some(DeltaOf(block)));
    }

    /** Derive the block's record over the cache; a miss loads the ancestry from the store once and tries again. */
    method DeriveRecord(block: Block, walk: Derivation) returns (derived: bool)
      requires CacheGood() && GoodArchive(w, store)
      modifies cache
      ensures CacheGood() && cache.byHash.Keys <= old(cache.byHash.Keys) + store.records.Keys
      ensures cache.View() == RecordWindow.PutAll(old(cache.View()), old(LoadedFor(block, walk)), cache.capacity)
      ensures derived <==> old(DerivesFor(block, walk))
    {
      hide GoodCache, GoodArchive, RecordOf, RecordCache.Agree, RecordCache.Contents, RecordRepair.AllTrue, RecordRepair.MissingOf,
           RecordWalk.StoreWalk, RecordRepair.RepairBound, RecordRepair.Settled, RecordRepair.Covered;
      NothingLoaded(cache.View(), cache.capacity);
      if walk.Found? {
        return true;
      }
      GoodIsTrue(w, cache.Ix());
      RowsAreTrue(w, store);
      KnownHashes(w, cache.byHash);
      var loaded := RecordRepair.RepairWalkAncestry(cache, store.records, block.prev, block.height, constants, Records(w));
      TrueIsGood(w, cache.Ix());
      derived := loaded > 0 && !walk.again;
    }

    /** Decide whether a block may be archived, and derive its delta. */
    method PrepareDelta(block: Block, walk: Derivation, ghost view: Store) returns (r: Result<Option<BlockDelta>, NodeError>)
      requires Valid(view) && CacheGood() && HeaderOk(w, block) && Attested(w, store, cache.byHash, block)
      modifies this`fullHistory, cache
      ensures CacheGood() && cache.byHash.Keys <= old(cache.byHash.Keys) + store.records.Keys
      ensures var has, admitted := old(Has(block.hash)), Admits(w, store, old(cache.byHash), view, old(fullHistory), block);
              && (r == Ok(None) <==> has)
              && (r.Ok? && r.value.Some? <==> !has && admitted && old(DerivesFor(block, walk)))
              && (r.Ok? && r.value.Some? ==> r.value.value == DeltaOf(block))
              && (!has && !ParentKnown(store, old(cache.byHash), block) ==> r == Err(UnknownParent))
              && cache.View() == RecordWindow.PutAll(old(cache.View()),
                                                     if !has && admitted then old(LoadedFor(block, walk)) else [], cache.capacity)
      ensures old(fullHistory) ==> fullHistory
    {
      hide ShapedView, Shaped, Vetted, LogShaped, LogGood, DeltaOf, GoodCache, Admits, RecordCache.Agree, RecordCache.Contents,
           RecordWindow.PutAll, Loaded, Derives, GoodArchive, ConfirmedBy, HeaderOk;
      SturdyParts(view);
      PrepareFacts(w, store, staged, pending, view, block);
      NothingLoaded(cache.View(), cache.capacity);
      r := Vet(block, view);
      if r.Ok? && r.value.Some? {
        var derived := DeriveRecord(block, walk);
        if !derived {
          return Err(NotFound);
        }
      }
    }

    /**
     Validate one block, archive it, and run fork choice on it. A block it has already, or does not
     admit, changes no durable state. Otherwise its row is durable; with an archived parent the rest is
     `Decided`, so store and ledger are those of archiving and then confirming it, and the engine is
     valid again exactly when the block fits and may start a chain or there is a peak already. A row
     without an archived parent leaves an archive that is no longer linked: the block is pending, or
     the base of a chain that had none. The cache gains no record that is not archived.
     */
    method AddBlock(block: Block, walk: Derivation) returns (r: Result<Outcome, NodeError>)
      requires Valid(store) && CacheGood() && HeaderOk(w, block) && Attested(w, store, cache.byHash, block)
      modifies this`store, this`pending, this`log, this`fullHistory, cache
      ensures CacheGood() && cache.byHash.Keys <= old(cache.byHash.Keys) + store.records.Keys
      ensures var has, batch := old(Has(block.hash)), Persist(old(store), block);
              var admitted := Admits(w, old(store), old(cache.byHash), old(store), old(fullHistory), block);
              var accepted := !has && admitted && old(DerivesFor(block, walk));
              && (has ==> r == Ok(AlreadyHave)) && (!has && !accepted ==> r.Err?)
              && (!has && !ParentKnown(old(store), old(cache.byHash), block) ==> r == Err(UnknownParent))
              && (!accepted ==>
                    && unchanged(this`store, this`pending, this`log) && Valid(store)
                    && cache.View() == RecordWindow.PutAll(old(cache.View()),
                                                           if !has && admitted then old(LoadedFor(block, walk)) else [], cache.capacity))
              && (accepted ==> store.records == batch.records && store.bodies == batch.bodies)
              && (accepted && Linked(w, old(store).records.Keys, block.hash) ==>
                    && Sturdy(store) && store == After(w, old(store), [Archived(block), Event.Confirmed(block.hash)])
                    && Decided(w, batch, DeltaOf(block), horizon, r, store, old(pending), pending, old(log), log))
              && (accepted && !Linked(w, old(store).records.Keys, block.hash) && old(store.peak.Some?) ==>
                    && store == batch && block.hash in pending
                    && (r.Ok? <==> block.weight <= w(old(store).peak.value.hash).weight))
              && (accepted && !Linked(w, old(store).records.Keys, block.hash) && old(store.peak.None?) ==>
                    store == Anchored(batch, DeltaOf(block)) && r == Ok(NewPeak(block.height)))
              && (accepted ==> (Valid(store) <==> Fits(w, old(store), block) && MayStart(w, batch, block.hash)))
    {
      hide *;
      ValidBy(store);
      ShapedViewParts(w, store, staged, pending, store);
      var prepared := PrepareDelta(block, walk, store);
      ValidBy(store);
      if prepared.Err? {
        return Err(prepared.error);
      }
      if prepared.value.None? {
        return Ok(AlreadyHave);
      }
      var batch := Persist(store, block);
      AddStart(w, store, old(cache.byHash), old(fullHistory), block);
      AdmittedIsJoined(w, store, old(cache.byHash), store, old(fullHistory), block);
      SturdyIs(store);
      r := Confirm(batch, prepared.value.value);
      ValidBy(store);
      SturdyIs(store);
      AddEnd(w, old(store), batch, block, store, staged, pending);
      if Linked(w, old(store).records.Keys, block.hash) {
        AddedIsAfter(w, old(store), block, horizon, r, store, old(pending), pending, old(log), log);
      }
    }

    /**
     Stage one block of a window: validate it, archive it in the open window batch, which the first
     block that stages opens, and put its record in the cache. Nothing becomes durable. The batch stays
     in order exactly when the block fits.
     */
    method StageBlock(block: Block, walk: Derivation, batch: Option<Store>)
      returns (r: Result<Option<BlockDelta>, NodeError>, next: Option<Store>)
      requires Valid(Carried(batch, store)) && CacheGood() && HeaderOk(w, block) && Attested(w, store, cache.byHash, block)
      modifies this`staged, this`fullHistory, cache
      ensures CacheGood()
      ensures cache.byHash.Keys <= old(cache.byHash.Keys) + store.records.Keys + if r.Ok? && r.value.Some? then {block.hash} else {}
      ensures var view, has := Carried(batch, store), old(Has(block.hash));
              var admitted := Admits(w, store, old(cache.byHash), view, old(fullHistory), block);
              var refilled := RecordWindow.PutAll(old(cache.View()), if !has && admitted then old(LoadedFor(block, walk)) else [],
                                                  cache.capacity);
              && (r == Ok(None) <==> has)
              && (!has && !ParentKnown(store, old(cache.byHash), block) ==> r == Err(UnknownParent))
              && (r.Ok? && r.value.Some? <==> !has && admitted && old(DerivesFor(block, walk)))
              && if r.Ok? && r.value.Some?
                 then && r.value.value == DeltaOf(block) && next == Some(Persist(view, block))
                      && staged == old(staged)[block.hash := DeltaOf(block)]
                      && cache.View() == RecordCache.Put(refilled, RecordOf(block), cache.capacity)
                      && (Valid(next.value) <==> Fits(w, view, block))
                 else next == batch && unchanged(this`staged) && cache.View() == refilled && Valid(view)
    {
      hide *;
      ghost var view := Carried(batch, store);
      ValidBy(view);
      r := PrepareDelta(block, walk, view);
      ValidBy(view);
      next := batch;
      if r.Ok? && r.value.Some? {
        AdmittedIsJoined(w, store, old(cache.byHash), view, old(fullHistory), block);
        StageStep(w, store, staged, pending, view, block);
        next := Some(Persist(Carried(batch, store), block));
        Remember(r.value.value.record);
        staged := staged[block.hash := r.value.value];
        ValidBy(next.value);
      }
    }

    /** Stage one block near the tip: the same, with the archive rows committed at once. */
    method StageBlockNow(block: Block, walk: Derivation) returns (r: Result<Option<BlockDelta>, NodeError>)
      requires Valid(store) && CacheGood() && HeaderOk(w, block) && Attested(w, store, cache.byHash, block)
      modifies this`store, this`log, this`staged, this`fullHistory, cache
      ensures CacheGood() && cache.byHash.Keys <= old(cache.byHash.Keys) + store.records.Keys
      ensures var has := old(Has(block.hash));
              var admitted := Admits(w, old(store), old(cache.byHash), old(store), old(fullHistory), block);
              var refilled := RecordWindow.PutAll(old(cache.View()), if !has && admitted then old(LoadedFor(block, walk)) else [],
                                                  cache.capacity);
              && (r == Ok(None) <==> has)
              && (!has && !ParentKnown(old(store), old(cache.byHash), block) ==> r == Err(UnknownParent))
              && (r.Ok? && r.value.Some? <==> !has && admitted && old(DerivesFor(block, walk)))
              && if r.Ok? && r.value.Some?
                 then && r.value.value == DeltaOf(block) && store == Persist(old(store), block) && log == old(log) + [store]
                      && staged == old(staged)[block.hash := DeltaOf(block)]
                      && cache.View() == RecordCache.Put(refilled, RecordOf(block), cache.capacity)
                      && (Valid(store) <==> Fits(w, old(store), block))
                 else unchanged(this`store, this`log, this`staged) && cache.View() == refilled && Valid(store)
    {
      hide *;
      ghost var s, before := store, log;
      ValidBy(store);
      StagedNow(w, s, block);
      var next;
      r, next := StageBlock(block, walk, None);
      if r.Ok? && r.value.Some? {
        ValidBy(next.value);
        Commit(next.value);
        ValidBy(store);
        CommitStaged(w, s, old(staged), staged, pending, block, before);
      }
    }

    /** Drop the staged overlay of a window that will not be confirmed. The records staging cached stay cached. */
    method ClearStagedOverlay(ghost view: Store)
      requires Sturdy(view)
      modifies this`staged, this`preload
      ensures staged == map[] && preload == None && Sturdy(store) && cache.byHash == old(cache.byHash)
      ensures old(Valid(view)) ==> Valid(store)
    {
      hide Shaped, LogShaped, LogGood, ShapedView, Vetted;
      if Valid(view) {
        ValidIsGood(view);
      }
      ShapedViewParts(w, store, staged, pending, view);
      staged, preload := map[], None;
      SelfView(w, store, staged, pending);
    }

    /** Confirm one staged block whose archive rows are durable. */
    method ConfirmStaged(d: BlockDelta) returns (r: Result<Outcome, NodeError>)
      requires Sturdy(store) && CacheGood() && Stored(w, store, d)
      modifies this`store, this`pending, this`staged, this`log, cache
      ensures Sturdy(store) && CacheGood() && staged == old(staged) - {d.hash}
      ensures Decided(w, old(store), d, horizon, r, store, old(pending), pending, old(log), log)
      ensures cache.byHash.Keys <= old(cache.byHash.Keys) + {d.hash}
      ensures old(Valid(store)) ==> (Valid(store) <==> MayStart(w, old(store), d.hash))
    {
      hide Shaped, DeltaOf, LogShaped, LogGood, DeltasAgree, Decided, ShapedView, Vetted, MayStart, GoodCache, RecordCache.Agree;
      ShapedViewParts(w, store, staged, pending, store);
      ghost var before := staged;
      staged := staged - {d.hash};
      AgreeShrink(w, before, store, staged, store);
      SelfView(w, store, staged, pending);
      r := Confirm(store, d);
    }

    // ---- Batched confirmation ------------------------------------------------------------------------------

    /** A block applied to the chain leaves both overlays. */
    method Retire(h: Hash)
      modifies this`staged, this`pending
      ensures staged == old(staged) - {h} && pending == old(pending) - {h}
    {
      staged := staged - {h};
      pending := pending - {h};
    }

    /** One block of the fast path, in the open batch or a new one; its overlay entries retire, its record is cached. */
    method ApplyOne(batch: Option<Store>, d: BlockDelta, perBlock: bool, ghost cur: Store, ghost view: Store)
      returns (next: Option<Store>)
      requires Shaped(w, cur) && Stored(w, cur, d) && d.hash in cur.records && CacheGood()
      requires Carried(batch, store) == if perBlock then cur else Lagging(cur, view)
      modifies this`store, this`pending, this`staged, this`log, cache
      ensures perBlock ==> next == None && store == Land(w, cur, d.hash) && log == old(log) + [store]
      ensures !perBlock ==> next == Some(Lagging(Land(w, cur, d.hash), view)) && store == old(store) && log == old(log)
      ensures CacheGood() && cache.byHash.Keys <= old(cache.byHash.Keys) + {d.hash}
      ensures staged == old(staged) - {d.hash} && pending == old(pending) - {d.hash}
    {
      hide Shaped, Tip, DeltaOf, RecordOf, Apply, HashesOf, RecordCache.Agree, RecordCache.Put, GoodCache;
      StoredIsShapedRecord(w, cur, d);
      DeltaFields(w(d.hash));
      RecordFields(w(d.hash));
      var b := if batch.Some? then batch.value else store;
      if perBlock {
        b := ExtendIn(b, d, w);
        Commit(b);
        next := None;
      } else {
        var coins := ApplyBlock(b.coins, d);
        next := Some(b.(coins := coins));
      }
      Remember(d.record);
      Retire(d.hash);
    }

    /**
     The loop of the fast path: apply every delta that plainly extends the running peak, and on an
     empty chain the first one whatever it is. Near the tip each block is committed with its peak;
     otherwise the coins gather in one batch whose flags and peak still lag behind.
     */
    method ApplyPrefix(deltas: seq<BlockDelta>, carry: Option<Store>)
      returns (idx: nat, outcomes: seq<Outcome>, batch: Option<Store>, ghost cur: Store)
      requires deltas != [] && Sturdy(Carried(carry, store)) && AllStored(w, Carried(carry, store), deltas) && CacheGood()
      modifies this`store, this`pending, this`staged, this`log, cache
      ensures idx <= |deltas| && PrefixHeld(w, Carried(carry, old(store)), HashesIn(deltas), idx, cur, outcomes, nearTip, carry, batch,
                                            old(Memory(store, log, staged, pending)), Memory(store, log, staged, pending))
      ensures idx < |deltas| ==> !Linear(OutcomeOf(w, cur, HashesIn(deltas)[idx]))
      ensures cur.peak.Some? && (old(store).peak.None? ==> idx > 0)
      ensures CacheGood() && cache.byHash.Keys <= old(cache.byHash.Keys) + ToSet(HashesIn(deltas))
    {
      hide *;
      ghost var view, hs := Carried(carry, store), HashesIn(deltas);
      SturdyParts(view);
      ViewPeak(w, store, staged, pending, view);
      var running, runningWeight: nat := None, 0;
      if store.peak.Some? {
        runningWeight := PeakWeight();
        running := Some(store.peak.value.hash);
      }
      var perBlock := nearTip;
      batch, outcomes, idx := carry, [], 0;
      cur := view;
      ghost var from := Memory(store, log, staged, pending);
      StoredAtIndex(w, view, deltas, 0);
      PrefixStart(w, view, hs, perBlock, carry, from);
      while idx < |deltas|
        invariant idx <= |deltas|
        invariant PrefixHeld(w, view, hs, idx, cur, outcomes, perBlock, carry, batch, from, Memory(store, log, staged, pending))
        invariant running == if cur.peak.None? then None else Some(cur.peak.value.hash)
        invariant running.Some? ==> runningWeight == w(running.value).weight
        invariant idx == 0 ==> running.Some? == old(store).peak.Some?
        invariant idx > 0 ==> running.Some?
        invariant CacheGood() && cache.byHash.Keys <= old(cache.byHash.Keys) + ToSet(hs)
      {
        var d := deltas[idx];
        StoredAtIndex(w, view, deltas, idx);
        PlainExtension(w, view, cur, d);
        if running.Some? && (d.prev != running.value || d.weight <= runningWeight) {
          NotLinear(w, cur, d.hash);
          break;
        }
        ghost var before, was := Memory(store, log, staged, pending), batch;
        PrefixMove(w, view, hs, idx, cur, outcomes, perBlock, carry, batch, from, before, d);
        InToSet(hs, idx);
        batch := ApplyOne(batch, d, perBlock, cur, view);
        PrefixHeldStep(w, view, hs, idx, cur, outcomes, perBlock, carry, was, batch, from, before,
                       Memory(store, log, staged, pending), d);
        outcomes := outcomes + [if running.None? then NewPeak(d.height) else Extended(d.height)];
        running, runningWeight := Some(d.hash), d.weight;
        cur := Land(w, cur, d.hash);
        idx := idx + 1;
      }
    }

    /** Commit what is left open: flip the peak to the last block applied, if any was. */
    method Seal(batch: Option<Store>, tip: Option<Hash>, ghost cur: Store)
      requires batch.None? ==> store == cur
      requires batch.Some? && tip.None? ==> batch.value == cur
      requires batch.Some? && tip.Some? ==>
                 && GoodArchive(w, batch.value) && FlagsAreAncestry(w, batch.value) && tip.value in batch.value.records
                 && PeakWith(w, batch.value, tip.value, batch.value.coins) == cur
      modifies this`store, this`log
      ensures store == cur && log == old(log) + if batch.Some? then [cur] else []
    {
      hide Tip, HashesOf, GoodArchive, FlagsAreAncestry;
      if batch.Some? {
        var b := batch.value;
        if tip.Some? {
          var links;
          b, links := SetPeak(b, tip.value, w);
        }
        Commit(b);
      }
    }

    /**
     The fast path of a window: apply every delta that plainly extends the running peak, one
     transaction per block near the tip and one for the whole window otherwise, continuing in the
     carried batch. The store ends as after confirming that prefix one by one.
     */
    method ConfirmPrefix(deltas: seq<BlockDelta>, carry: Option<Store>) returns (idx: nat, outcomes: seq<Outcome>)
      requires deltas != [] && Sturdy(Carried(carry, store)) && AllStored(w, Carried(carry, store), deltas) && CacheGood()
      modifies this`store, this`pending, this`staged, this`log, cache
      ensures idx <= |deltas| && Sturdy(store) && store.peak.Some? && (old(store).peak.None? ==> idx > 0)
      ensures var view, hs := Carried(carry, old(store)), HashesIn(deltas);
              && store == Run(w, view, hs[..idx])
              && outcomes == RunOutcomes(w, view, hs[..idx]) && (forall o :: o in outcomes ==> Linear(o))
              && (idx < |deltas| ==> !Linear(OutcomeOf(w, store, hs[idx])))
              && log == old(log) + Commits(w, view, hs[..idx], nearTip, carry.Some?)
      ensures staged == old(staged) - ToSet(HashesIn(deltas)[..idx])
      ensures CacheGood() && cache.byHash.Keys <= old(cache.byHash.Keys) + ToSet(HashesIn(deltas))
    {
      hide *;
      ghost var view, hs := Carried(carry, store), HashesIn(deltas);
      ghost var from := Memory(store, log, staged, pending);
      SturdyParts(view);
      ShapedViewParts(w, store, staged, pending, view);
      HashCount(deltas);
      var batch;
      ghost var cur;
      idx, outcomes, batch, cur := ApplyPrefix(deltas, carry);
      ghost var m := Memory(store, log, staged, pending);
      SealReady(w, view, hs, idx, cur, outcomes, nearTip, carry, batch, from, m);
      var last := if idx == 0 then 0 else idx - 1;
      StoredAtIndex(w, view, deltas, last);
      Seal(batch, if idx > 0 then Some(deltas[last].hash) else None, cur);
      PrunePending(deltas[last].height);
      SealEnd(w, view, hs, idx, cur, outcomes, nearTip, carry, batch, from, m, deltas, Memory(store, log, staged, pending),
              deltas[last].height, horizon);
      SturdyBy(store);
    }

    /** The sequential path: confirm the remaining deltas one at a time. */
    method ConfirmEach(deltas: seq<BlockDelta>, from: nat, done: seq<Outcome>, ghost view: Store)
      returns (r: Result<seq<Outcome>, NodeError>)
      requires from <= |deltas| && Sturdy(store) && AllStored(w, store, deltas) && store.peak.Some? && CacheGood()
      requires store == Run(w, view, HashesIn(deltas)[..from]) && done == RunOutcomes(w, view, HashesIn(deltas)[..from])
      requires NoneFails(w, view, HashesIn(deltas), from)
      requires from < |deltas| ==> !Linear(OutcomeOf(w, store, HashesIn(deltas)[from]))
      modifies this`store, this`pending, this`staged, this`log, cache
      ensures Sturdy(store)
      ensures var hs := HashesIn(deltas);
              && (r.Ok? <==> NoneFails(w, view, hs, |hs|))
              && (r.Ok? ==> r.value == RunOutcomes(w, view, hs[..|hs|]) && store == Run(w, view, hs[..|hs|]))
              && (r.Err? ==> FailsFirst(w, view, hs, store))
              && old(log) <= log && PrefixStates(w, view, hs, log[|old(log)|..])
      ensures from == |deltas| ==> log == old(log)
      ensures r.Ok? && from < |deltas| ==> exists o :: o in r.value && !Linear(o)
      ensures CacheGood() && cache.byHash.Keys <= old(cache.byHash.Keys) + ToSet(HashesIn(deltas))
    {
      hide *;
      ghost var hs := HashesIn(deltas);
      HashCount(deltas);
      NothingNew(w, view, hs, log);
      var outcomes := done;
      var k := from;
      while k < |deltas|
        invariant from <= k <= |deltas|
        invariant Sturdy(store) && AllStored(w, store, deltas) && store.peak.Some?
        invariant store == Run(w, view, hs[..k]) && outcomes == RunOutcomes(w, view, hs[..k])
        invariant NoneFails(w, view, hs, k)
        invariant old(log) <= log && PrefixStates(w, view, hs, log[|old(log)|..])
        invariant k == from ==> log == old(log)
        invariant k == from < |deltas| ==> !Linear(OutcomeOf(w, store, hs[from]))
        invariant k > from ==> exists o :: o in outcomes && !Linear(o)
        invariant CacheGood() && cache.byHash.Keys <= old(cache.byHash.Keys) + ToSet(hs)
      {
        StoredAtIndex(w, store, deltas, k);
        ghost var before, logged := store, log;
        InToSet(hs, k);
        ghost var was := pending;
        var one := ConfirmStaged(deltas[k]);
        DecidedLogs(w, before, deltas[k], horizon, one, store, was, pending, logged, log);
        EachStep(w, view, hs, k, before);
        if one.Err? {
          TailStates(w, view, hs, k, old(log), logged, log, store);
          FailedAt(w, view, hs, k);
          return Err(one.error);
        }
        NoneFailsStep(w, view, hs, k);
        TailStates(w, view, hs, k, old(log), logged, log, store);
        StoredThere(w, before, store, deltas);
        assert k == from ==> (outcomes + [one.value])[|outcomes|] == one.value;
        outcomes := outcomes + [one.value];
        k := k + 1;
      }
      return Ok(outcomes);
    }

    /**
     Confirm a whole window: the fast path, then the remaining deltas one by one. At either commit
     granularity, and with any carried batch, the outcomes and the final store are those of
     confirming the deltas in order (`RunOutcomes`, `Run`), and it fails exactly where that would.
     Every durable state on the way is the state after some prefix of the window, so a crash loses
     whole blocks only; when all deltas extend the peak, each block is durable near the tip and only
     the whole window otherwise. All of them keep the ledger law exactly when there was a peak or the
     first block is fit to be first. An empty window drops the carried batch, and nothing else.
     */
    method ConfirmStagedBatch(deltas: seq<BlockDelta>, carry: Option<Store>) returns (r: Result<seq<Outcome>, NodeError>)
      requires Sturdy(Carried(carry, store)) && AllStored(w, Carried(carry, store), deltas) && CacheGood()
      modifies this`store, this`pending, this`staged, this`log, cache
      ensures deltas == [] ==> r == Ok([]) && unchanged(this) && unchanged(cache)
      ensures CacheGood() && cache.byHash.Keys <= old(cache.byHash.Keys) + ToSet(HashesIn(deltas))
      ensures deltas != [] ==>
                var view, hs := Carried(carry, old(store)), HashesIn(deltas);
                && Sturdy(store)
                && (r.Ok? <==> NoneFails(w, view, hs, |hs|))
                && (r.Ok? ==> r.value == RunOutcomes(w, view, hs) && store == Run(w, view, hs))
                && (r.Err? ==> FailsFirst(w, view, hs, store))
                && old(log) <= log && PrefixStates(w, view, hs, log[|old(log)|..])
                && (r.Ok? && (forall o :: o in r.value ==> Linear(o)) ==>
                      log == old(log) + Commits(w, view, hs, nearTip, carry.Some?))
                && (old(Valid(Carried(carry, store))) ==> (Valid(store) <==> MayStart(w, view, hs[0])))
    {
      hide *;
      if deltas == [] {
        return Ok([]);
      }
      ghost var view, hs := Carried(carry, store), HashesIn(deltas);
      ghost var valid, logged := Valid(view), log;
      HashCount(deltas);
      SturdyParts(view);
      ViewPeak(w, store, staged, pending, view);
      if valid {
        ValidParts(view);
      }
      var idx, outcomes := ConfirmPrefix(deltas, carry);
      PrefixNeverFails(w, view, hs, idx);
      CommitsArePrefixes(w, view, hs, idx, nearTip, carry.Some?);
      RunKeepsArchive(w, view, hs[..idx]);
      StoredThere(w, view, store, deltas);
      ghost var sealed := log;
      r := ConfirmEach(deltas, idx, outcomes, view);
      PrefixStatesJoin(w, view, hs, logged, sealed, log);
      assert hs[..|hs|] == hs;
      SturdyParts(store);
      ValidExactly();
      if valid {
        BatchLaw(w, view, hs, idx, nearTip, carry.Some?, deltas, logged, sealed, log);
      }
    }
  }

  /** After a crash: an engine over any durable state of another is in order, and keeps the ledger law if that one did. */
  method Resume(e: Engine, s: Store, ghost k: nat, window: nat) returns (next: Engine)
    requires LogShaped(e.w, e.log) && k < |e.log| && s == e.log[k] && RecordRepair.Sane(e.constants)
    ensures fresh(next) && next.w == e.w && next.store == s && next.pending == map[] && next.staged == map[]
    ensures next.Sturdy(next.store) && next.CacheGood() && Mirrors(s, next.cache.byHash, s)
    ensures LogGood(e.w, e.log) ==> next.Valid(next.store)
  {
    hide Shaped, GoodStore;
    next := new Engine(e.w, e.horizon, e.constants, window, s);
  }
}
