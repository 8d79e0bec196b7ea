/**
 One confirmation of the engine, on store values: what it leaves of store, overlay and log, which
 invariants it keeps, and when every durable state keeps the ledger law.
 */
module Confirmation {
  import opened Coins
  import opened CoinTable
  import opened Chain
  import opened Ledger
  import opened Archive
  import opened MainChain
  import opened ForkChoice
  import opened LedgerLaw
  import opened BranchWalk
  import opened ChainEngine
  import opened WindowRun
  import Supply

  ghost predicate LogShaped(w: World, log: seq<Store>) {
    forall i {:trigger log[i]} :: 0 <= i < |log| ==> Shaped(w, log[i])
  }

  ghost predicate LogGood(w: World, log: seq<Store>) {
    forall i {:trigger log[i]} :: 0 <= i < |log| ==> GoodStore(w, log[i])
  }

  /**
   The ledger laws hold in every durable state: its coin table is the replay of its own peak's
   chain and holds exactly the coins that chain created, spent where it spent them; no two blocks
   spend one coin; and the unspent total with the unclaimed fees is the rewards claimed.
   */
  lemma DurableLaws(w: World, log: seq<Store>, k: nat)
    requires LogGood(w, log) && k < |log| && log[k].peak.Some?
    ensures var s, chain := log[k], Tip(w, log[k].peak.value.hash);
            && ValidChain(chain) && s.main == HashesOf(chain) && s.coins == Replay(chain)
            && s.coins.Keys == CreatedIn(chain)
            && (forall n :: Spent(s.coins, n) <==> n in SpentIn(chain))
            && (forall i, j, n :: 0 <= i < j < |chain| && n in Removals(chain[i]) ==> n !in Removals(chain[j]))
            && Supply.SumSet(Supply.UnspentSet(s.coins)) + Supply.LastFees(chain) == Supply.BaseRewards(ClaimedTo(chain))
  {
    hide Replay, GoodArchive, Complete, ValidChain, CreatedIn, SpentIn, HashesOf, Tip, Removals, Vetted;
    var s := log[k];
    var chain := Tip(w, s.peak.value.hash);
    CompleteIsValid(w, s, s.peak.value.hash);
    TipIsNotEmpty(w, s.peak.value.hash);
    TableFromGenesis(chain);
    Supply.SupplyIsConserved(chain);
    forall i, j, n | 0 <= i < j < |chain| && n in Removals(chain[i])
      ensures n !in Removals(chain[j])
    {
      if n in Removals(chain[j]) {
        NoDoubleSpend(chain, i, j, n);
      }
    }
  }

  lemma TipIsNotEmpty(w: World, h: Hash)
    ensures Tip(w, h) != []
  {
  }

  lemma LogExtend(w: World, log: seq<Store>, s: Store)
    requires LogShaped(w, log) && Shaped(w, s)
    ensures LogShaped(w, log + [s])
  {
    hide Shaped;
  }

  /** A log grows by the given states; it stays good exactly when they are good. */
  lemma LogGrows(w: World, before: seq<Store>, more: seq<Store>)
    requires LogGood(w, before)
    ensures LogGood(w, before + more) <==> forall j {:trigger more[j]} :: 0 <= j < |more| ==> GoodStore(w, more[j])
  {
    hide GoodStore;
    var all := before + more;
    if LogGood(w, all) {
      forall j | 0 <= j < |more|
        ensures GoodStore(w, more[j])
      {
        assert all[|before| + j] == more[j];
      }
    }
  }

  lemma LogShrinks(w: World, before: seq<Store>, after: seq<Store>)
    requires before <= after && LogGood(w, after)
    ensures LogGood(w, before)
  {
    hide GoodStore;
    assert forall i :: 0 <= i < |before| ==> before[i] == after[i];
  }

  lemma MainInRecords(w: World, s: Store)
    requires Shaped(w, s)
    ensures s.main <= s.records.Keys
  {
    hide GoodRows;
    GoodFlags(w, s);
    FlagsAreRecords(w, s);
  }

  lemma PeakRecord(w: World, s: Store)
    requires Shaped(w, s) && s.peak.Some?
    ensures s.peak.value.hash in s.records && s.records[s.peak.value.hash] == RecordOf(w(s.peak.value.hash))
    ensures RecordOf(w(s.peak.value.hash)).weight == w(s.peak.value.hash).weight
  {
    hide RecordOf;
    assert GoodRows(w, s, s.peak.value.hash);
    RecordFields(w(s.peak.value.hash));
  }

  lemma HeavierIsOff(w: World, s: Store, h: Hash)
    requires Shaped(w, s) && h in s.bodies
    ensures h in s.records && w(h).hash == h
    ensures s.peak.Some? && Heavier(w, s, h) ==> h !in s.main
  {
    hide Tip;
    StoredIsLinked(w, s, h);
    if h in s.main && s.peak.Some? {
      MainIsLighter(w, s, h);
    }
  }

  lemma AgreeInsert(w: World, ds: Deltas, s: Store, d: BlockDelta)
    requires DeltasAgree(w, ds, s) && Stored(w, s, d)
    ensures DeltasAgree(w, ds[d.hash := d], s)
  {
    hide DeltaOf;
  }

  /** Fewer deltas, over a store that kept its bodies. */
  lemma AgreeShrink(w: World, ds: Deltas, s: Store, less: Deltas, t: Store)
    requires DeltasAgree(w, ds, s) && s.bodies.Keys <= t.bodies.Keys
    requires forall h :: h in less ==> h in ds && less[h] == ds[h]
    ensures DeltasAgree(w, less, t)
  {
    hide DeltaOf;
  }

  lemma ShapedViewParts(w: World, s: Store, staged: Deltas, pending: Deltas, view: Store)
    requires ShapedView(w, s, staged, pending, view)
    ensures Shaped(w, s) && Shaped(w, view) && ArchiveGrew(s, view)
    ensures DeltasAgree(w, staged, view) && DeltasAgree(w, pending, s) && DeltasAgree(w, pending, view)
  {
    hide Shaped, DeltaOf;
  }

  function HashSet(ds: seq<BlockDelta>): set<Hash> {
    set d | d in ds :: d.hash
  }

  lemma HashSetStep(ds: seq<BlockDelta>, i: nat)
    requires i < |ds|
    ensures HashSet(ds[..i + 1]) == HashSet(ds[..i]) + {ds[i].hash}
  {
    assert ds[..i + 1] == ds[..i] + [ds[i]];
  }

  lemma HashSetOfBlocks(blocks: seq<Block>)
    ensures HashSet(DeltasOf(blocks)) == HashesOf(blocks)
  {
    hide Additions, Removals, RecordOf;
    var ds := DeltasOf(blocks);
    assert forall i :: 0 <= i < |blocks| ==> ds[i].hash == blocks[i].hash;
    forall h | h in HashesOf(blocks)
      ensures h in HashSet(ds)
    {
      var i :| 0 <= i < |blocks| && blocks[i].hash == h;
      assert ds[i] in ds;
    }
  }

  lemma BranchHashes(w: World, s: Store, h: Hash, branch: seq<BlockDelta>)
    requires WholeBranch(w, s, h, branch) && Shaped(w, s) && h in s.records && h !in s.main && w(h).hash == h
    ensures HashSet(branch) == AboveFork(w, s, h) && h in HashSet(branch)
  {
    hide Shaped, DeltasOf, ForkOf;
    ForkBelowTip(w, s, h);
    var chain, k := Tip(w, h), ForkOf(s.main, Tip(w, h)) + 1;
    HashSetOfBlocks(chain[k..]);
    LastInSuffix(chain, k);
  }

  lemma LastInSuffix(chain: seq<Block>, k: nat)
    requires k < |chain|
    ensures chain[|chain| - 1].hash in HashesOf(chain[k..])
  {
    assert chain[k..][|chain| - 1 - k] == chain[|chain| - 1];
  }

  /** A batch ready to be confirmed: the durable ledger with more rows, among them the block's. */
  ghost predicate Ready(w: World, s: Store, batch: Store, d: BlockDelta) {
    Shaped(w, batch) && ArchiveGrew(s, batch) && Stored(w, batch, d)
  }

  /** A batch with one new row whose parent is not archived. */
  ghost predicate Dangling(w: World, s: Store, batch: Store, d: BlockDelta) {
    && batch == Persist(s, w(d.hash)) && d == DeltaOf(w(d.hash)) && w(d.hash).hash == d.hash
    && d.height > 0 && d.prev !in s.records && d.prev != d.hash
  }

  /** A chain that starts at one block: it alone is flagged, and only its coins are in the table. */
  function Anchored(batch: Store, d: BlockDelta): Store
    requires d.hash in batch.records
  {
    batch.(main := {d.hash}, peak := Some(Peak(d.hash, batch.records[d.hash].height)), coins := Apply(batch.coins, d))
  }

  lemma DanglingFacts(w: World, s: Store, batch: Store, d: BlockDelta)
    requires Shaped(w, s) && Dangling(w, s, batch, d)
    ensures d.hash !in s.records && batch.peak == s.peak && batch.main == s.main && batch.main <= batch.records.Keys
    ensures d.hash in batch.records && batch.records[d.hash].prev == d.prev && d.prev !in batch.records
    ensures !GoodArchive(w, batch) && d.prev !in s.bodies && d.hash !in s.bodies
    ensures s.peak.Some? ==> s.peak.value.hash in s.records && d.prev != s.peak.value.hash
    ensures s.peak.None? ==> Landable(w, batch, d)
  {
    hide GoodArchive, RecordOf, Tip;
    DeltaFields(w(d.hash));
    RecordFields(w(d.hash));
    MainInRecords(w, s);
    NoChild(w, s, d.hash);
    UnlinkedIsBroken(w, batch, w(d.hash));
  }

  lemma NoChild(w: World, s: Store, h: Hash)
    requires GoodArchive(w, s) && w(h).hash == h && w(h).height > 0 && w(h).prev !in s.records
    ensures h !in s.records && h !in s.bodies && w(h).prev !in s.bodies
  {
    assert GoodRows(w, s, h) && GoodRows(w, s, w(h).prev);
    assert h in s.records ==> Linked(w, s.records.Keys, h);
  }

  /** After a confirmation rows, flags and overlays are in order again. */
  lemma ConfirmKeepsShape(w: World, s: Store, staged: Deltas, pending: Deltas, batch: Store, d: BlockDelta, t: Store, kept: Deltas)
    requires ShapedView(w, s, staged, pending, s) && Ready(w, s, batch, d)
    requires t == batch || t == Step(w, batch, d.hash)
    requires forall h :: h in kept ==> (h in pending && kept[h] == pending[h]) || (h == d.hash && kept[h] == d)
    ensures ShapedView(w, t, staged, kept, t)
  {
    hide Tip, DeltaOf, HashesOf, Apply, Onto, RollbackTo, Shaped;
    ShapedViewParts(w, s, staged, pending, s);
    StoredIsShapedRecord(w, batch, d);
    StepIsShaped(w, batch, d.hash);
    assert t.bodies == batch.bodies;
    AgreeShrink(w, staged, s, staged, t);
    AgreeShrink(w, pending, s, pending, t);
    AgreeInsert(w, pending, t, d);
    AgreeShrink(w, pending[d.hash := d], t, kept, t);
    SelfView(w, t, staged, kept);
  }

  lemma StoredIsShapedRecord(w: World, s: Store, d: BlockDelta)
    requires Shaped(w, s) && Stored(w, s, d)
    ensures d.hash in s.records && w(d.hash).hash == d.hash
  {
    hide DeltaOf;
    StoredIsLinked(w, s, d.hash);
  }

  /** The states a confirmation makes durable are good exactly when there was a peak or the block is fit to be first. */
  lemma ConfirmLaw(w: World, s: Store, batch: Store, d: BlockDelta)
    requires GoodStore(w, s) && Ready(w, s, batch, d) && Vetted(w, batch)
    ensures GoodStore(w, batch)
    ensures !Fails(w, batch, d.hash) ==> (GoodStore(w, Step(w, batch, d.hash)) <==> MayStart(w, batch, d.hash))
    ensures Fails(w, batch, d.hash) ==> MayStart(w, batch, d.hash)
  {
    hide Shaped, Vetted, Fails, First, Tip, Land, Switch, DeltaOf, Replayed;
    GrewIsReplayed(w, s, batch);
    if batch.peak.Some? {
      if !Fails(w, batch, d.hash) {
        StepReplays(w, batch, d.hash);
      }
    } else {
      FirstExactly(w, batch, d.hash);
      NoPeakNoFailure(w, batch, d.hash);
    }
  }

  lemma NoPeakNoFailure(w: World, s: Store, h: Hash)
    requires s.peak.None?
    ensures !Fails(w, s, h)
  {
  }

  lemma DecidedLogs(w: World, s: Store, d: BlockDelta, horizon: nat, r: Result<Outcome, NodeError>, t: Store,
                    was: Deltas, now: Deltas, before: seq<Store>, log: seq<Store>)
    requires Decided(w, s, d, horizon, r, t, was, now, before, log)
    ensures r.Err? <==> Fails(w, s, d.hash)
    ensures r.Ok? ==> t == Step(w, s, d.hash) && r.value == OutcomeOf(w, s, d.hash)
    ensures r.Err? ==> t == s
    ensures before < log && forall i :: |before| <= i < |log| ==> log[i] == s || log[i] == t
  {
    hide Fails, Step, OutcomeOf, PendingAfter, Prune;
  }

  /** What fork choice leaves of a batch in order, before the overlay is trimmed. */
  ghost predicate Chosen(w: World, batch: Store, d: BlockDelta, horizon: nat, r: Result<Outcome, NodeError>, t: Store,
                         was: Deltas, now: Deltas, before: seq<Store>, log: seq<Store>)
  {
    && (r.Err? <==> Fails(w, batch, d.hash))
    && (r.Ok? ==> && t == Step(w, batch, d.hash) && r.value == OutcomeOf(w, batch, d.hash)
                  && now == (if r.value.Orphan? then Prune(was[d.hash := d], d.height, horizon) else PendingAfter(w, batch, was, d))
                  && log == before + if r.value.Reorg? then [batch, t] else [t])
    && (r.Err? ==> t == batch && log == before + [batch] && now == was[d.hash := d])
  }

  /** What a confirmation leaves: store, outcome, pruned overlay, and the durable states on the way. */
  ghost predicate Decided(w: World, batch: Store, d: BlockDelta, horizon: nat, r: Result<Outcome, NodeError>, t: Store,
                          was: Deltas, now: Deltas, before: seq<Store>, log: seq<Store>)
  {
    && (r.Err? <==> Fails(w, batch, d.hash))
    && (r.Ok? ==> && t == Step(w, batch, d.hash) && r.value == OutcomeOf(w, batch, d.hash)
                  && now == Prune(PendingAfter(w, batch, was, d), d.height, horizon)
                  && log == before + if r.value.Reorg? then [batch, t] else [t])
    && (r.Err? ==> t == batch && log == before + [batch] && now == was[d.hash := d])
  }

  lemma PruneTwice(ds: Deltas, height: nat, horizon: nat)
    ensures Prune(Prune(ds, height, horizon), height, horizon) == Prune(ds, height, horizon)
  {
  }

  lemma PruneKeeps(ds: Deltas, d: BlockDelta, horizon: nat)
    ensures d.hash in Prune(ds[d.hash := d], d.height, horizon) && Prune(ds[d.hash := d], d.height, horizon)[d.hash] == d
  {
  }

  /** Trimming the overlay as the outcome says. */
  lemma ConfirmPending(w: World, batch: Store, d: BlockDelta, horizon: nat, o: Outcome, was: Deltas, mid: Deltas)
    requires Shaped(w, batch) && d.hash in batch.bodies && d == DeltaOf(w(d.hash)) && o == OutcomeOf(w, batch, d.hash)
    requires mid == if o.Orphan? then Prune(was[d.hash := d], d.height, horizon) else PendingAfter(w, batch, was, d)
    ensures Prune(if o.Orphan? then mid else mid - {d.hash}, d.height, horizon) ==
            Prune(PendingAfter(w, batch, was, d), d.height, horizon)
  {
    hide Shaped, Tip, DeltaOf, ForkOf;
    if o.Orphan? {
      PruneTwice(was[d.hash := d], d.height, horizon);
    } else if o.Reorg? {
      HeavierIsOff(w, batch, d.hash);
      ForkBelowTip(w, batch, d.hash);
      LastIsTip(w, d.hash);
      LastInSuffix(Tip(w, d.hash), ForkOf(batch.main, Tip(w, d.hash)) + 1);
    }
    hide Prune, AboveFork;
    if !o.Orphan? {
      assert mid - {d.hash} == mid;
    }
  }

  lemma LastIsTip(w: World, h: Hash)
    ensures Tip(w, h) != [] && Tip(w, h)[|Tip(w, h)| - 1] == w(h)
  {
  }

  /** A confirmation adds no delta but its own to the overlay. */
  lemma PendingIsOld(w: World, batch: Store, was: Deltas, d: BlockDelta, horizon: nat)
    ensures var now := Prune(PendingAfter(w, batch, was, d), d.height, horizon);
            forall h :: h in now ==> (h in was && now[h] == was[h]) || (h == d.hash && now[h] == d)
  {
    hide AboveFork, Heavier, OutcomeOf;
  }

  /** The durable states of one confirmation. */
  lemma ConfirmLogs(w: World, s: Store, before: seq<Store>, batch: Store, d: BlockDelta,
                    r: Result<Outcome, NodeError>, t: Store, log: seq<Store>)
    requires Shaped(w, s) && Ready(w, s, batch, d) && LogShaped(w, before) && before != [] && before[|before| - 1] == s
    requires r.Err? <==> Fails(w, batch, d.hash)
    requires r.Ok? ==> t == Step(w, batch, d.hash) && log == before + if r.value.Reorg? then [batch, t] else [t]
    requires r.Err? ==> t == batch && log == before + [batch]
    ensures LogShaped(w, log) && log != [] && log[|log| - 1] == t
    ensures LogGood(w, before) && Vetted(w, batch) ==> (LogGood(w, log) && Vetted(w, t) <==> MayStart(w, batch, d.hash))
  {
    hide Shaped, Vetted, Replayed, MayStart, Fails, Step, DeltaOf;
    StoredIsShapedRecord(w, batch, d);
    StepIsShaped(w, batch, d.hash);
    StepKeepsRows(w, batch, d.hash);
    GoodArchiveDependsOnRows(w, batch, t);
    var more := log[|before|..];
    assert log == before + more;
    if LogGood(w, before) && Vetted(w, batch) {
      assert GoodStore(w, before[|before| - 1]);
      ConfirmLaw(w, s, batch, d);
      LogGrows(w, before, more);
      assert more[|more| - 1] == t;
    }
  }

  lemma StepKeepsRows(w: World, s: Store, h: Hash)
    ensures Step(w, s, h).records == s.records && Step(w, s, h).bodies == s.bodies
  {
    hide Tip, Onto, RollbackTo, HashesOf;
  }

  /** From the equations of fork choice to the invariants and the law. */
  lemma ConfirmEnd(w: World, s: Store, staged: Deltas, was: Deltas, before: seq<Store>, batch: Store, d: BlockDelta, horizon: nat,
                   r: Result<Outcome, NodeError>, t: Store, mid: Deltas, now: Deltas, log: seq<Store>)
    requires ShapedView(w, s, staged, was, s) && Ready(w, s, batch, d) && LogShaped(w, before)
    requires before != [] && before[|before| - 1] == s
    requires Chosen(w, batch, d, horizon, r, t, was, mid, before, log)
    requires now == if r.Err? then mid else Prune(if r.value.Orphan? then mid else mid - {d.hash}, d.height, horizon)
    ensures Decided(w, batch, d, horizon, r, t, was, now, before, log)
    ensures ShapedView(w, t, staged, now, t) && LogShaped(w, log) && log != [] && log[|log| - 1] == t
    ensures LogGood(w, before) && Vetted(w, batch) ==> (LogGood(w, log) && Vetted(w, t) <==> MayStart(w, batch, d.hash))
  {
    hide Shaped, ShapedView, Step, OutcomeOf, Fails, PendingAfter, LogShaped, LogGood, MayStart, Vetted, DeltaOf;
    ShapedViewParts(w, s, staged, was, s);
    if r.Ok? {
      ConfirmPending(w, batch, d, horizon, r.value, was, mid);
    }
    PendingIsOld(w, batch, was, d, horizon);
    ConfirmKeepsShape(w, s, staged, was, batch, d, t, now);
    ConfirmLogs(w, s, before, batch, d, r, t, log);
  }

  /** What a reorg starts from. */
  lemma ReorgFacts(w: World, s: Store, staged: Deltas, pending: Deltas, d: BlockDelta)
    requires ShapedView(w, s, staged, pending, s) && Stored(w, s, d) && s.peak.Some? && Heavier(w, s, d.hash)
    ensures Shaped(w, s) && d.hash in s.records && d.hash !in s.main && w(d.hash).hash == d.hash
    ensures BranchReady(w, s, pending[d.hash := d], d)
  {
    hide Shaped, DeltaOf, Heavier;
    ShapedViewParts(w, s, staged, pending, s);
    HeavierIsOff(w, s, d.hash);
    AgreeInsert(w, pending, s, d);
  }

  /** The facts fork choice reads of the batch and the block. */
  lemma ConfirmStart(w: World, s: Store, staged: Deltas, pending: Deltas, batch: Store, d: BlockDelta)
    requires ShapedView(w, s, staged, pending, s) && (Ready(w, s, batch, d) || Dangling(w, s, batch, d))
    ensures Shaped(w, s) && d == DeltaOf(w(d.hash)) && batch.peak == s.peak && batch.main <= batch.records.Keys
    ensures d.height == w(d.hash).height && d.weight == w(d.hash).weight && d.prev == w(d.hash).prev
    ensures d.record == RecordOf(w(d.hash)) && d.record.hash == d.hash && w(d.hash).hash == d.hash && d.hash in batch.records
    ensures Ready(w, s, batch, d) ==> Shaped(w, batch) && ShapedView(w, batch, staged, pending, batch) && Stored(w, batch, d)
    ensures batch.peak.None? || Ready(w, s, batch, d) ==> Landable(w, batch, d)
    ensures Dangling(w, s, batch, d) ==>
              && !Shaped(w, batch) && !GoodArchive(w, batch)
              && d.prev !in batch.records && d.prev !in pending && d.prev != d.hash
              && (s.peak.Some? ==> d.prev != s.peak.value.hash)
  {
    hide Shaped, GoodArchive, Tip, DeltaOf, RecordOf;
    ShapedViewParts(w, s, staged, pending, s);
    DeltaFields(w(d.hash));
    RecordFields(w(d.hash));
    if Ready(w, s, batch, d) {
      StoredIsShapedRecord(w, batch, d);
      MainInRecords(w, batch);
      AgreeShrink(w, staged, s, staged, batch);
      AgreeShrink(w, pending, s, pending, batch);
      SelfView(w, batch, staged, pending);
    }
    if Dangling(w, s, batch, d) {
      DanglingFacts(w, s, batch, d);
      BrokenIsNotShaped(w, batch);
    }
  }

  lemma BrokenIsNotShaped(w: World, s: Store)
    requires !GoodArchive(w, s)
    ensures !Shaped(w, s)
  {
  }
}
