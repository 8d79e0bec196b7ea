/**
 Admission of a block, on values: what the engine lets through, given its cache, its durable store and
 the archive a staging batch would leave, and when that is what the archive alone would say.
 */
module BlockAdmission {
  import opened Coins
  import opened Chain
  import opened Archive
  import opened MainChain
  import opened ForkOverlay
  import opened ForkChoice
  import opened BranchWalk
  import opened BodyRules
  import opened ChainEngine
  import opened WindowRun
  import opened Confirmation

  /** The block sits one above its parent and weighs more. */
  ghost predicate Joined(w: World, b: Block) {
    b.height > 0 ==> w(b.prev).height + 1 == b.height && w(b.prev).weight < b.weight
  }

  /** What header validation, which is not modelled here, has checked of a block. */
  ghost predicate HeaderOk(w: World, b: Block) {
    && w(b.hash) == b && b.hash != GENESIS_CHALLENGE
    && (b.height == 0 ==> b.prev == GENESIS_CHALLENGE && b.IsTx())
    && (Joined(w, b) ==> Bound(w, b))
  }

  lemma LinkedIsJoined(w: World, known: set<Hash>, b: Block)
    requires HeaderOk(w, b)
    ensures Linked(w, known, b.hash) <==> Joined(w, b) && (b.height > 0 ==> b.prev in known)
  {
    hide Bound;
  }

  /** Admission finds the parent in the cache or the durable store, or takes the block as the base of an empty chain. */
  ghost predicate ParentKnown(s: Store, cached: Cached, b: Block) {
    b.height > 0 ==> b.prev in Known(s, cached) || s.peak.None?
  }

  /** A base is taken without its parent's record, so its place is vouched for by the weight proof it came with. */
  ghost predicate Attested(w: World, s: Store, cached: Cached, b: Block) {
    b.height > 0 && b.prev !in Known(s, cached) && s.peak.None? ==> Joined(w, b)
  }

  /** Full history is on for a block at this height. */
  predicate Enforced(s: Store, fullHistory: bool, height: nat) {
    fullHistory || s.peak.Some? || height == 0
  }

  /**
   The caller's side of admission: the parent is archived and still in reach, and for a transaction
   block the coin rules are on and the records of its reward walk are in reach.
   */
  ghost predicate Clear(w: World, s: Store, cached: Cached, view: Store, fullHistory: bool, b: Block) {
    && ParentKnown(s, cached, b) && (b.height > 0 ==> b.prev in view.records)
    && (b.IsTx() ==> Enforced(s, fullHistory, b.height)
                     && (b.height > 0 ==> Traced(ParentChain(w, b), Known(s, cached))))
  }

  /** No archive holds the parent: at most the cache does. */
  ghost predicate StrayParent(view: Store, b: Block) {
    b.height > 0 && b.prev !in view.records
  }

  /** The cache mirrors the archive: nothing in it is foreign, and no staged record has left it. */
  ghost predicate Mirrors(s: Store, cached: Cached, view: Store) {
    cached.Keys <= view.records.Keys && view.records.Keys <= Known(s, cached)
  }

  /** While the cache mirrors the archive, a block with an archived parent is clear once the coin rules are on. */
  lemma MirrorIsClear(w: World, s: Store, cached: Cached, view: Store, fullHistory: bool, b: Block)
    requires Shaped(w, view) && Mirrors(s, cached, view) && (b.IsTx() ==> Enforced(s, fullHistory, b.height))
    requires b.height > 0 ==> b.prev in view.records
    ensures Clear(w, s, cached, view, fullHistory, b)
  {
    hide GoodRows, PeakFlags;
    if b.height > 0 && b.IsTx() {
      var chain := ParentChain(w, b);
      forall i | 0 <= i && ClaimedTo(chain) <= i <= LastTx(chain)
        ensures chain[i].hash in Known(s, cached)
      {
        BranchAt(w, view.records.Keys, b.prev, i);
      }
    }
  }

  /** What admission reads of the parent. */
  lemma PrepareFacts(w: World, s: Store, staged: Deltas, pending: Deltas, view: Store, b: Block)
    requires ShapedView(w, s, staged, pending, view)
    ensures Shaped(w, s) && GoodArchive(w, s) && FlagsAreAncestry(w, s) && GoodArchive(w, view) && s.main <= s.records.Keys
    ensures b.prev in s.records ==> b.prev in view.records && s.records[b.prev] == RecordOf(w(b.prev))
    ensures b.prev !in view.records ==> b.prev !in staged && b.prev !in pending && b.prev !in s.records
    ensures RecordOf(w(b.prev)).height == w(b.prev).height && RecordOf(w(b.prev)).weight == w(b.prev).weight
  {
    hide ValidChain, RecordOf;
    GoodFlags(w, s);
    MainInRecords(w, s);
    assert GoodRows(w, s, b.prev) && GoodRows(w, view, b.prev);
    RecordFields(w(b.prev));
  }

  /** The rules a transaction block under a stray parent is held to: spends against the main chain's rows. */
  ghost predicate StrayRules(w: World, s: Store, cached: Cached, b: Block)
    requires b.IsTx() && Bound(w, b)
  {
    && RewardsPass(w, Known(s, cached), b, true) && DeltaRules(b)
    && OverlayRules(ForkView(b.height - 1, map[], {}), s.coins, b)
  }

  /**
   Exactly what admission lets through, of blocks it does not have already. The parent must be in reach
   and the block joined to it. A transaction block is then held to the coin rules of its own branch;
   with a parent only the cache knows, to those of the main chain's rows; and before full history,
   only to the rules that need no coin table.
   */
  ghost predicate Admits(w: World, s: Store, cached: Cached, view: Store, fullHistory: bool, b: Block)
    requires HeaderOk(w, b)
  {
    && ParentKnown(s, cached, b) && Joined(w, b)
    && (b.IsTx() ==>
          if !Enforced(s, fullHistory, b.height) then RewardsPass(w, Known(s, cached), b, false) && DeltaRules(b)
          else if StrayParent(view, b) then StrayRules(w, s, cached, b)
          else (b.height > 0 ==> Traced(ParentChain(w, b), Known(s, cached))) && Fits(w, view, b))
  }

  /** A block that fits is refused exactly when its parent, or a record of its reward walk, is out of reach. */
  lemma FitIsAdmitted(w: World, s: Store, cached: Cached, view: Store, fullHistory: bool, b: Block)
    requires GoodArchive(w, view) && Vetted(w, view) && HeaderOk(w, b) && Fits(w, view, b)
    ensures Admits(w, s, cached, view, fullHistory, b) <==>
              && ParentKnown(s, cached, b)
              && (b.IsTx() && Enforced(s, fullHistory, b.height) && b.height > 0 ==> Traced(ParentChain(w, b), Known(s, cached)))
  {
    hide Bound, GoodArchive, Vetted, ParentStored, Linked, HeaderBinds, Traced;
    LinkedIsJoined(w, view.records.Keys, b);
    if b.IsTx() && !Enforced(s, fullHistory, b.height) {
      ParentIsValid(w, view, b);
      LenientPasses(w, Known(s, cached), b);
    }
  }

  /** Under full history an admitted block fits exactly when its parent is archived. */
  lemma AdmittedFits(w: World, s: Store, cached: Cached, view: Store, fullHistory: bool, b: Block)
    requires HeaderOk(w, b) && Admits(w, s, cached, view, fullHistory, b)
    requires s.records.Keys <= view.records.Keys && (b.IsTx() ==> Enforced(s, fullHistory, b.height))
    ensures Fits(w, view, b) <==> (b.height > 0 ==> b.prev in view.records)
  {
    hide Bound, ParentStored, CoinRules, HeaderBinds, Traced, StrayRules;
    LinkedIsJoined(w, view.records.Keys, b);
  }

  /** A clear block is admitted exactly when it fits. */
  lemma ClearIsExact(w: World, s: Store, cached: Cached, view: Store, fullHistory: bool, b: Block)
    requires GoodArchive(w, view) && Vetted(w, view) && HeaderOk(w, b) && s.records.Keys <= view.records.Keys
    requires Clear(w, s, cached, view, fullHistory, b)
    ensures Admits(w, s, cached, view, fullHistory, b) <==> Fits(w, view, b)
  {
    hide GoodArchive, Vetted, HeaderOk, Fits, Admits, Traced, Known;
    if Fits(w, view, b) {
      FitIsAdmitted(w, s, cached, view, fullHistory, b);
    }
    if Admits(w, s, cached, view, fullHistory, b) {
      AdmittedFits(w, s, cached, view, fullHistory, b);
    }
  }

  lemma PersistView(w: World, s: Store, staged: Deltas, pending: Deltas, view: Store, b: Block)
    requires ShapedView(w, s, staged, pending, view) && w(b.hash) == b && Linked(w, view.records.Keys, b.hash)
    ensures ShapedView(w, s, staged[b.hash := DeltaOf(b)], pending, Persist(view, b))
  {
    hide Shaped, RecordOf, DeltaOf, Linked;
    PersistIsShaped(w, view, b);
    var t := Persist(view, b);
    assert t.records.Keys == view.records.Keys + {b.hash};
    assert t.bodies.Keys == view.bodies.Keys + {b.hash};
    hide Persist;
    assert DeltasAgree(w, staged[b.hash := DeltaOf(b)], t);
  }

  lemma PersistStores(w: World, s: Store, b: Block)
    requires Shaped(w, s) && w(b.hash) == b
    ensures Linked(w, s.records.Keys, b.hash) ==> Ready(w, s, Persist(s, b), DeltaOf(b))
    ensures b.height > 0 && b.prev !in s.records && b.prev != b.hash ==> Dangling(w, s, Persist(s, b), DeltaOf(b))
    ensures DeltaOf(b).hash == b.hash && DeltaOf(b).height == b.height && DeltaOf(b).weight == b.weight
    ensures DeltaOf(b).record == RecordOf(b)
  {
    PersistIsShaped(w, s, b);
    DeltaFields(b);
    hide Shaped, RecordOf, DeltaOf, Linked;
  }

  lemma AdmittedIsJoined(w: World, s: Store, cached: Cached, view: Store, fullHistory: bool, b: Block)
    requires HeaderOk(w, b) && Admits(w, s, cached, view, fullHistory, b)
    ensures Joined(w, b)
  {
    hide HeaderOk, Fits, StrayRules, RewardsPass, Traced;
  }

  lemma AddedIsAfter(w: World, s: Store, b: Block, horizon: nat, r: Result<Outcome, NodeError>, t: Store,
                     was: Deltas, now: Deltas, before: seq<Store>, log: seq<Store>)
    requires DeltaOf(b).hash == b.hash && Decided(w, Persist(s, b), DeltaOf(b), horizon, r, t, was, now, before, log)
    ensures t == After(w, s, [Archived(b), Event.Confirmed(b.hash)])
  {
    hide Fails, Step, DeltaOf, PendingAfter, OutcomeOf, Persist;
    var events := [Archived(b), Event.Confirmed(b.hash)];
    assert events[..1] == [Archived(b)] && [Archived(b)][..0] == [];
    assert After(w, s, [Archived(b)]) == Persist(s, b);
  }

  lemma AddStart(w: World, s: Store, cached: Cached, fullHistory: bool, b: Block)
    requires Shaped(w, s) && HeaderOk(w, b) && Admits(w, s, cached, s, fullHistory, b)
    ensures var batch := Persist(s, b);
            && (Linked(w, s.records.Keys, b.hash) ==> Ready(w, s, batch, DeltaOf(b)))
            && (!Linked(w, s.records.Keys, b.hash) ==> Dangling(w, s, batch, DeltaOf(b)))
            && batch.records.Keys == s.records.Keys + {b.hash}
            && batch.bodies.Keys == s.bodies.Keys + {b.hash}
    ensures DeltaOf(b).hash == b.hash && DeltaOf(b).weight == b.weight && DeltaOf(b).height == b.height
  {
    hide Bound, Shaped, RecordOf, DeltaOf, Traced, Fits, StrayRules, DeltaRules, RewardsPass, Ready, Dangling;
    LinkedIsJoined(w, s.records.Keys, b);
    PersistStores(w, s, b);
  }

  /** What the row of an admitted block does to the invariants. */
  lemma AddEnd(w: World, s: Store, batch: Store, b: Block, t: Store, staged: Deltas, pending: Deltas)
    requires Shaped(w, s) && Vetted(w, s) && HeaderOk(w, b) && batch == Persist(s, b) && Joined(w, b)
    requires t.records == batch.records && t.bodies == batch.bodies
    ensures !Linked(w, s.records.Keys, b.hash) ==> !ShapedView(w, t, staged, pending, t)
    ensures Linked(w, s.records.Keys, b.hash) ==> (Vetted(w, t) <==> Fits(w, s, b)) && (Vetted(w, batch) <==> Fits(w, s, b))
    ensures Fits(w, s, b) ==> Linked(w, s.records.Keys, b.hash)
  {
    hide Shaped, ShapedView, Vetted, Linked, GoodArchive, RecordOf, ParentStored, CoinRules;
    LinkedIsJoined(w, s.records.Keys, b);
    GoodArchiveDependsOnRows(w, batch, t);
    if Linked(w, s.records.Keys, b.hash) {
      PersistIsVetted(w, s, b);
    } else {
      PersistStores(w, s, b);
      DanglingFacts(w, s, batch, DeltaOf(b));
      BrokenIsNotShaped(w, t);
      if ShapedView(w, t, staged, pending, t) {
        ShapedViewParts(w, t, staged, pending, t);
      }
    }
  }

  /** Staging a block keeps the view in order exactly when it fits. */
  lemma StageStep(w: World, s: Store, staged: Deltas, pending: Deltas, view: Store, b: Block)
    requires ShapedView(w, s, staged, pending, view) && Vetted(w, view) && HeaderOk(w, b) && Joined(w, b)
    ensures ShapedView(w, s, staged[b.hash := DeltaOf(b)], pending, Persist(view, b)) && Vetted(w, Persist(view, b))
            <==> Fits(w, view, b)
    ensures DeltaOf(b).record == RecordOf(b) && RecordOf(b).hash == b.hash && w(b.hash) == b
  {
    hide Shaped, Vetted, Linked, GoodArchive, RecordOf, ParentStored, CoinRules, ShapedView;
    ShapedViewParts(w, s, staged, pending, view);
    LinkedIsJoined(w, view.records.Keys, b);
    DeltaFields(b);
    RecordFields(b);
    if Linked(w, view.records.Keys, b.hash) {
      PersistView(w, s, staged, pending, view, b);
      PersistIsVetted(w, view, b);
    } else {
      PersistIsShaped(w, view, b);
      if ShapedView(w, s, staged[b.hash := DeltaOf(b)], pending, Persist(view, b)) {
        ShapedViewParts(w, s, staged[b.hash := DeltaOf(b)], pending, Persist(view, b));
      }
    }
  }

  lemma CachedRecord(w: World, cached: Cached, h: Hash)
    requires GoodCache(w, cached)
    ensures h in cached ==> cached[h] == RecordOf(w(h))
  {
  }

  lemma FullHistory(w: World, s: Store)
    requires Shaped(w, s)
    ensures s.main <= s.records.Keys && (s.main == {} <==> s.peak.None?)
    ensures s.peak.Some? ==> exists h :: h in s.main && h in s.records && s.records[h].height == 0
  {
    hide ValidChain, RecordOf;
    GoodFlags(w, s);
    MainInRecords(w, s);
    if s.peak.Some? {
      var p := s.peak.value.hash;
      BranchAt(w, s.records.Keys, p, 0);
      var g := Tip(w, p)[0].hash;
      assert GoodRows(w, s, g);
      RecordFields(w(g));
      assert g in s.main;
    }
  }

  /** The verdict of the coin rules, read as admission reads it. */
  lemma RulesAreAdmission(w: World, s: Store, cached: Cached, staged: Deltas, pending: Deltas, view: Store, b: Block,
                          enforced: bool, passed: bool)
    requires ShapedView(w, s, staged, pending, view) && HeaderOk(w, b) && Joined(w, b) && ParentKnown(s, cached, b) && b.IsTx()
    requires !RewardsPass(w, Known(s, cached), b, enforced) || !DeltaRules(b) ==> !passed
    requires !enforced ==> (passed <==> RewardsPass(w, Known(s, cached), b, false) && DeltaRules(b))
    requires enforced && Attached(w, view, b) && (b.height > 0 ==> Traced(ParentChain(w, b), Known(s, cached))) ==>
               (passed <==> ParentStored(w, view, b) && CoinRules(ParentChain(w, b), b))
    requires enforced && Stray(s, staged, pending, b) ==> (passed <==> StrayRules(w, s, cached, b))
    ensures passed <==>
              if !enforced then RewardsPass(w, Known(s, cached), b, false) && DeltaRules(b)
              else if StrayParent(view, b) then StrayRules(w, s, cached, b)
              else (b.height > 0 ==> Traced(ParentChain(w, b), Known(s, cached))) && Fits(w, view, b)
  {
    hide ShapedView, ParentStored, DeltaRules, SpendRules, HeaderBinds, Traced, Chained, OverlayRules, GoodArchive, FlagsAreAncestry,
         RecordOf, ClaimsAreExact, ParentChain;
    PrepareFacts(w, s, staged, pending, view, b);
    LinkedIsJoined(w, view.records.Keys, b);
    UntracedFails(w, Known(s, cached), b);
  }

  lemma UntracedFails(w: World, known: set<Hash>, b: Block)
    requires b.IsTx() && Bound(w, b)
    ensures RewardsPass(w, known, b, true) && b.height > 0 ==> Traced(ParentChain(w, b), known)
  {
    hide Traced, Chained, HeaderBinds, ClaimsAreExact;
  }

  lemma StagedNow(w: World, s: Store, b: Block)
    ensures Persist(s, b).records.Keys == s.records.Keys + {b.hash}
    ensures Carried(None, s) == s
  {
  }

  /** Committing the rows of one staged block keeps the engine valid exactly when the block fits. */
  lemma CommitStaged(w: World, s: Store, was: Deltas, staged: Deltas, pending: Deltas, b: Block, log: seq<Store>)
    requires ShapedView(w, s, was, pending, s) && Vetted(w, s) && LogShaped(w, log) && LogGood(w, log) && log != []
    requires log[|log| - 1] == s && staged == was[b.hash := DeltaOf(b)]
    ensures var t := Persist(s, b);
            ShapedView(w, s, staged, pending, t) && Vetted(w, t) <==>
            ShapedView(w, t, staged, pending, t) && Vetted(w, t) && LogShaped(w, log + [t]) && LogGood(w, log + [t])
  {
    hide Shaped, Vetted, Replayed, DeltaOf, RecordOf, ShapedView, LogGood, LogShaped, DeltasAgree;
    var t := Persist(s, b);
    PersistGrows(s, b);
    if ShapedView(w, s, staged, pending, t) && Vetted(w, t) {
      ShapedViewParts(w, s, staged, pending, t);
      SelfView(w, t, staged, pending);
      LogExtend(w, log, t);
      LastIsReplayed(w, log);
      GrewIsReplayed(w, s, t);
      LogGrows(w, log, [t]);
    }
    if ShapedView(w, t, staged, pending, t) {
      ShapedViewParts(w, t, staged, pending, t);
      ShapedViewParts(w, s, was, pending, s);
      ViewAgain(w, s, was, staged, pending, b);
    }
  }

  lemma PersistGrows(s: Store, b: Block)
    ensures ArchiveGrew(s, Persist(s, b))
  {
  }

  lemma LastIsReplayed(w: World, log: seq<Store>)
    requires LogGood(w, log) && log != []
    ensures Replayed(w, log[|log| - 1])
  {
    hide Shaped, Vetted, Replayed;
  }

  lemma ViewAgain(w: World, s: Store, was: Deltas, staged: Deltas, pending: Deltas, b: Block)
    requires ShapedView(w, s, was, pending, s) && staged == was[b.hash := DeltaOf(b)] && Shaped(w, Persist(s, b))
    requires DeltasAgree(w, staged, Persist(s, b))
    ensures ShapedView(w, s, staged, pending, Persist(s, b))
  {
    hide Shaped, DeltaOf, RecordOf, DeltasAgree;
  }

  /** What a store offers an engine opened on it. */
  lemma OpenedStore(w: World, s: Store)
    requires Shaped(w, s)
    ensures ShapedView(w, s, map[], map[], s) && LogShaped(w, [s]) && GoodCache(w, map[])
    ensures GoodStore(w, s) ==> LogGood(w, [s]) && Vetted(w, s)
  {
    hide Shaped, Vetted, Replayed;
    SelfView(w, s, map[], map[]);
  }
}
