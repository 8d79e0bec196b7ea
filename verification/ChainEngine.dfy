/**
 The store transactions of the chain engine, on store values: archiving a block, landing a delta on
 the peak, and the reorg, each against the fork-choice step it performs.
 */
module ChainEngine {
  import opened Arithmetic
  import opened Coins
  import opened CoinTable
  import opened Chain
  import opened Archive
  import opened MainChain
  import opened ForkChoice
  import opened LedgerLaw
  import opened BranchWalk
  import opened BodyRules

  /** Drop the deltas below the horizon of `height`. */
  function Prune(ds: Deltas, height: nat, horizon: nat): Deltas {
    map h | h in ds && ds[h].height + horizon >= height :: ds[h]
  }

  function HashesIn(ds: seq<BlockDelta>): seq<Hash> {
    seq(|ds|, i requires 0 <= i < |ds| => ds[i].hash)
  }

  /** The same ledger with more archive rows. */
  ghost predicate ArchiveGrew(s: Store, t: Store) {
    && t.main == s.main && t.peak == s.peak && t.coins == s.coins
    && s.records.Keys <= t.records.Keys && s.bodies.Keys <= t.bodies.Keys
  }

  /** The block content a delta stands for is stored. */
  ghost predicate Stored(w: World, s: Store, d: BlockDelta) {
    d == DeltaOf(w(d.hash)) && d.hash in s.bodies
  }

  /** The blocks of a branch above its fork. */
  ghost function AboveFork(w: World, s: Store, h: Hash): set<Hash> {
    HashesOf(Tip(w, h)[ForkOf(s.main, Tip(w, h)) + 1..])
  }

  /** The pending overlay after a confirmation: a reorg takes off its whole branch, a linear step its block. */
  ghost function PendingAfter(w: World, s: Store, ds: Deltas, d: BlockDelta): Deltas {
    if !Heavier(w, s, d.hash) then ds[d.hash := d]
    else if Linear(OutcomeOf(w, s, d.hash)) then ds - {d.hash}
    else ds - AboveFork(w, s, d.hash)
  }

  // ---- Facts about the store ----------------------------------------------------------------------

  lemma SelfView(w: World, s: Store, staged: Deltas, pending: Deltas)
    requires Shaped(w, s) && DeltasAgree(w, staged, s) && DeltasAgree(w, pending, s)
    ensures ShapedView(w, s, staged, pending, s)
  {
  }

  /** No block of the main chain outweighs the peak. */
  lemma MainIsLighter(w: World, s: Store, h: Hash)
    requires Shaped(w, s) && h in s.main
    ensures w(h).weight <= w(s.peak.value.hash).weight
  {
    hide ValidChain, Complete;
    var p := s.peak.value.hash;
    var j := PlaceOf(Tip(w, p), h);
    BranchAt(w, s.records.Keys, p, j);
    WeightsRise(w, s, p, j);
  }

  lemma {:induction false} WeightsRise(w: World, s: Store, h: Hash, i: nat)
    requires AllLinked(w, s.records.Keys) && h in s.records && i <= w(h).height
    ensures Tip(w, h)[i].weight <= w(h).weight
    decreases w(h).height
  {
    assert Linked(w, s.records.Keys, h);
    if i < w(h).height {
      WeightsRise(w, s, w(h).prev, i);
      assert Tip(w, h)[i] == Tip(w, w(h).prev)[i];
    }
  }

  lemma GrewIsReplayed(w: World, s: Store, t: Store)
    requires Replayed(w, s) && ArchiveGrew(s, t)
    ensures Replayed(w, t)
  {
    hide Replay;
    if s.peak.Some? {
      CompleteGrows(w, s.bodies.Keys, t.bodies.Keys, s.peak.value.hash, w(s.peak.value.hash).height);
    }
  }

  // ---- Archiving a validated block --------------------------------------------------------------------

  /** What a block must be to be archived: linked, and for a transaction block valid on its own branch. */
  ghost predicate Fits(w: World, s: Store, b: Block) {
    && w(b.hash) == b && Linked(w, s.records.Keys, b.hash)
    && (b.IsTx() ==> ParentStored(w, s, b) && CoinRules(ParentChain(w, b), b) && HeaderBinds(ParentChain(w, b), b))
  }

  /** A genesis block that claims, spends and reserves nothing is accepted by an empty store. */
  lemma PlainGenesisFits(w: World, b: Block)
    requires w(b.hash) == b && b.hash != GENESIS_CHALLENGE && b.height == 0 && b.prev == GENESIS_CHALLENGE && b.IsTx()
    requires b.body.value.claims == [] && b.body.value.spends == [] && b.body.value.fees == 0 && b.body.value.reserveFee == 0
    ensures Fits(w, EMPTY_STORE, b)
  {
    assert ExpectedClaims([]) == {} && ClaimNames([]) == {};
    assert ParentChain(w, b) == [];
    assert Additions(b) == [] && Removals(b) == [];
  }

  /** Archiving a block keeps rows and flags in order exactly when its parent is archived below it. */
  lemma PersistIsShaped(w: World, s: Store, b: Block)
    requires Shaped(w, s) && w(b.hash) == b
    ensures Shaped(w, Persist(s, b)) <==> Linked(w, s.records.Keys, b.hash)
    ensures ArchiveGrew(s, Persist(s, b))
  {
    hide RecordOf;
    var t := Persist(s, b);
    assert t.records.Keys == s.records.Keys + {b.hash} && t.bodies.Keys == s.bodies.Keys + {b.hash};
    forall h
      ensures GoodRows(w, t, h)
    {
      assert GoodRows(w, s, h);
    }
    assert Shaped(w, t) ==> Linked(w, t.records.Keys, b.hash);
    if Linked(w, s.records.Keys, b.hash) {
      forall h | h in t.records
        ensures Linked(w, t.records.Keys, h)
      {
        assert h in s.records ==> Linked(w, s.records.Keys, h);
      }
    }
  }

  lemma {:induction false} CompleteWithout(w: World, s: Store, x: Hash, h: Hash, n: nat)
    requires GoodArchive(w, s) && h in s.records && w(h).height == n < w(x).height
    ensures Complete(w, s.bodies.Keys + {x}, h, n) <==> Complete(w, s.bodies.Keys, h, n)
    decreases n
  {
    hide GoodRows;
    assert Linked(w, s.records.Keys, h);
    if n > 0 {
      CompleteWithout(w, s, x, w(h).prev, n - 1);
    }
  }

  /** Archiving a linked block keeps every stored spend validated exactly when the block fits. */
  lemma PersistIsVetted(w: World, s: Store, b: Block)
    requires Shaped(w, s) && Vetted(w, s) && w(b.hash) == b && Linked(w, s.records.Keys, b.hash)
    requires b.IsTx() ==> HeaderBinds(ParentChain(w, b), b)
    ensures Vetted(w, Persist(s, b)) <==> Fits(w, s, b)
  {
    hide ValidChain, CoinRules, HeaderBinds, RecordOf, Complete, GoodRows;
    var t := Persist(s, b);
    assert t.bodies.Keys == s.bodies.Keys + {b.hash};
    if b.IsTx() {
      NewBranch(w, s, b);
    }
    if Fits(w, s, b) {
      forall h
        ensures VettedAt(w, t, h)
      {
        assert VettedAt(w, s, h);
        if h in s.bodies && w(h).IsTx() {
          CompleteGrows(w, s.bodies.Keys, t.bodies.Keys, h, w(h).height);
        }
      }
    } else {
      assert !VettedAt(w, t, b.hash);
    }
  }

  lemma NewBranch(w: World, s: Store, b: Block)
    requires GoodArchive(w, s) && Vetted(w, s) && w(b.hash) == b && Linked(w, s.records.Keys, b.hash) && b.IsTx()
    requires HeaderBinds(ParentChain(w, b), b)
    ensures Complete(w, s.bodies.Keys + {b.hash}, b.hash, b.height) && ValidChain(Tip(w, b.hash))
            <==> ParentStored(w, s, b) && CoinRules(ParentChain(w, b), b)
  {
    hide CoinRules, HeaderBinds, Replay, GoodRows, VettedAt;
    var chain := ParentChain(w, b);
    if b.height > 0 {
      CompleteWithout(w, s, b.hash, b.prev, b.height - 1);
    }
    if ParentStored(w, s, b) {
      ParentIsValid(w, s, b);
      EmptyReplay();
      assert Tip(w, b.hash) == chain + [b];
      ReplayStep(chain, b);
      if ValidChain(Tip(w, b.hash)) {
        ValidPrefix(Tip(w, b.hash), b.height);
        assert Tip(w, b.hash)[..b.height] == chain;
      }
    }
  }

  /** A row whose parent is not archived breaks the archive. */
  lemma UnlinkedIsBroken(w: World, s: Store, b: Block)
    requires b.hash in s.records && w(b.hash) == b && b.height > 0 && b.prev !in s.records
    ensures !GoodArchive(w, s)
  {
    assert !Linked(w, s.records.Keys, b.hash);
  }

  // ---- Store transactions -----------------------------------------------------------------------------

  lemma SameRows(w: World, s: Store, coins: Table)
    requires Shaped(w, s)
    ensures GoodArchive(w, s.(coins := coins)) && FlagsAreAncestry(w, s.(coins := coins))
  {
    hide ValidChain;
    GoodArchiveDependsOnRows(w, s, s.(coins := coins));
    GoodFlags(w, s);
  }

  lemma SameBreak(w: World, s: Store, coins: Table)
    requires !GoodArchive(w, s)
    ensures !GoodArchive(w, s.(coins := coins))
  {
    hide GoodArchive;
    if GoodArchive(w, s.(coins := coins)) {
      GoodArchiveDependsOnRows(w, s.(coins := coins), s);
    }
  }

  /** A batch the linear arm may land on: in order, or with its newest row cut off and no peak yet. */
  ghost predicate Landable(w: World, s: Store, d: BlockDelta) {
    (Shaped(w, s) && d.hash in s.records) || (!GoodArchive(w, s) && s.peak.None? && Cut(s, d.hash))
  }

  /** Apply one delta to the table as it is and flip the peak to it. */
  method ExtendIn(batch: Store, d: BlockDelta, ghost w: World) returns (b: Store)
    requires Landable(w, batch, d) && d == DeltaOf(w(d.hash))
    ensures b.records == batch.records && b.bodies == batch.bodies
    ensures Shaped(w, batch) ==> b == Land(w, batch, d.hash)
    ensures !GoodArchive(w, batch) ==>
              b == batch.(main := {d.hash}, peak := Some(Peak(d.hash, batch.records[d.hash].height)),
                          coins := Apply(batch.coins, d))
  {
    var coins := ApplyBlock(batch.coins, d);
    if Shaped(w, batch) {
      SameRows(w, batch, coins);
    } else {
      SameBreak(w, batch, coins);
    }
    hide GoodArchive, PeakFlags, Tip, Apply, FlagsAreAncestry, HashesOf, DeltaOf;
    var links;
    b, links := SetPeak(batch.(coins := coins), d.hash, w);
  }

  /** Roll back to the fork, replay the branch, flip the peak: one transaction. */
  method ReorgIn(s: Store, d: BlockDelta, branch: seq<BlockDelta>, ghost w: World)
    returns (b: Store, forkHeight: nat, links: nat)
    requires Shaped(w, s) && s.peak.Some? && d.hash in s.records && d.hash !in s.main && w(d.hash).hash == d.hash
    requires Reachable(w, s, d.hash) && WholeBranch(w, s, d.hash, branch)
    ensures b == Switch(w, s, d.hash)
    ensures forkHeight == ForkOf(s.main, Tip(w, d.hash)) && links == w(d.hash).height - forkHeight
  {
    hide GoodArchive, PeakFlags, Tip, Apply, FlagsAreAncestry, DeltaOf, RollbackTo, HashesOf, Onto, StoredAt, ForkOf, Shaped;
    ghost var chain, f := Tip(w, d.hash), ForkOf(s.main, Tip(w, d.hash));
    ForkBelowTip(w, s, d.hash);
    ghost var above := chain[f + 1..];
    DeltaFields(chain[f + 1]);
    var first := if branch == [] then d.height else branch[0].height;
    assert branch[0] == DeltaOf(chain[f + 1]);
    forkHeight := SaturatingSub(first, 1);
    var coins := Rollback(s.coins, forkHeight);
    OntoStart(coins, above);
    for i := 0 to |branch|
      invariant coins == Onto(RollbackTo(s.coins, f), above[..i])
    {
      OntoStep(RollbackTo(s.coins, f), above, i);
      assert branch[i] == DeltaOf(above[i]);
      coins := ApplyBlock(coins, branch[i]);
    }
    assert above[..|above|] == above;
    SameRows(w, s, coins);
    b, links := SetPeak(s.(coins := coins), d.hash, w);
  }

  lemma OntoStart(t: Table, blocks: seq<Block>)
    ensures Onto(t, blocks[..0]) == t
  {
  }

  lemma OntoStep(t: Table, blocks: seq<Block>, i: nat)
    requires i < |blocks|
    ensures Onto(t, blocks[..i + 1]) == Apply(Onto(t, blocks[..i]), DeltaOf(blocks[i]))
  {
    hide Apply, DeltaOf;
    assert blocks[..i + 1][..i] == blocks[..i];
  }

  /** A block off the main chain stands above its fork, which stands at its own height. */
  lemma ForkBelowTip(w: World, s: Store, h: Hash)
    requires Shaped(w, s) && h in s.records && h !in s.main && w(h).hash == h
    ensures var chain, f := Tip(w, h), ForkOf(s.main, Tip(w, h));
            && -1 <= f < |chain| - 1 && |chain| == w(h).height + 1 && chain[f + 1].height == f + 1
  {
    hide GoodRows;
    var chain, f := Tip(w, h), ForkOf(s.main, Tip(w, h));
    ForkInRange(s.main, chain);
    BranchAt(w, s.records.Keys, h, f + 1);
  }
}
