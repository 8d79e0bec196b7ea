/**
 When fork choice keeps the ledger law: each of its steps leaves the coin table equal to the replay
 of the new peak's branch, except a first block that lands on a table its ancestors never built.
 */
module LedgerLaw {
  import opened Coins
  import opened CoinTable
  import opened Chain
  import opened Ledger
  import opened Supply
  import opened Archive
  import opened MainChain
  import opened ForkChoice

  lemma StoredIsLinked(w: World, s: Store, h: Hash)
    requires GoodArchive(w, s) && h in s.bodies
    ensures h in s.records && w(h).hash == h && Linked(w, s.records.Keys, h)
  {
    hide ValidChain, RecordOf;
    assert GoodRows(w, s, h) && Linked(w, s.records.Keys, h);
  }

  lemma PlaceOf(chain: seq<Block>, h: Hash) returns (j: nat)
    requires h in HashesOf(chain)
    ensures j < |chain| && chain[j].hash == h
  {
    var b :| b in chain && b.hash == h;
    j :| 0 <= j < |chain| && chain[j] == b;
  }

  lemma EmptyReplay()
    ensures Replay([]) == map[] && ValidChain([]) && CreatedIn([]) == {} && SpentIn([]) == {}
  {
  }

  ghost function MainOf(w: World, s: Store): seq<Block> {
    if s.peak.None? then [] else Tip(w, s.peak.value.hash)
  }

  lemma MainIsValid(w: World, s: Store)
    requires GoodStore(w, s)
    ensures ValidChain(MainOf(w, s)) && s.coins == Replay(MainOf(w, s))
    ensures forall n :: n in s.coins ==> Id(s.coins[n].coin) == n
  {
    hide Replay, GoodArchive;
    if s.peak.Some? {
      CompleteIsValid(w, s, s.peak.value.hash);
    } else {
      EmptyReplay();
    }
    ReplayKeepsInv(MainOf(w, s));
  }

  // ---- The first block -----------------------------------------------------------------------------------

  lemma DeltaOfPlain(b: Block, t: Table)
    requires !b.IsTx()
    ensures Apply(t, DeltaOf(b)) == t
  {
  }

  /** A valid chain has created no coin exactly when it has no transaction block above genesis. */
  lemma {:induction false} EmptyUntilSecond(chain: seq<Block>)
    requires ValidChain(chain)
    ensures Replay(chain) == map[] <==> LastTx(chain) <= 0
    decreases |chain|
  {
    if LastTx(chain) > 0 {
      ClaimsFromGenesis(chain);
    } else if chain != [] {
      NothingYet(chain);
    }
  }

  lemma ClaimsFromGenesis(chain: seq<Block>)
    requires ValidChain(chain) && LastTx(chain) > 0
    ensures Replay(chain) != map[]
  {
    hide Replay, CoinRules, Accepts;
    var last := LastTx(chain);
    ValidPrefix(chain, last);
    ValidHeights(chain[..last]);
    RewardsArePaid(chain, 0);
  }

  lemma {:induction false} NothingYet(chain: seq<Block>)
    requires ValidChain(chain) && LastTx(chain) <= 0
    ensures Replay(chain) == map[]
    decreases |chain|
  {
    hide Apply, CoinRules;
    if chain != [] {
      var m := |chain| - 1;
      var init, b := chain[..m], chain[m];
      assert init + [b] == chain;
      ReplayStep(init, b);
      if m == 0 {
        GenesisTable(b);
      } else {
        assert LastTx(init) <= 0;
        NothingYet(init);
        DeltaOfPlain(b, map[]);
      }
    }
  }

  lemma GenesisTable(b: Block)
    requires Accepts([], b)
    ensures Apply(map[], DeltaOf(b)) == map[]
  {
    var d := DeltaOf(b);
    forall n
      ensures n !in NamesOf(d.additions) && n !in d.removals
    {
      GenesisCreatesNothing(b, n);
    }
    ApplyAt(map[], d);
  }

  /**
   What makes a block fit to be the first confirmed: its branch is fully stored, and no ancestor
   above genesis is a transaction block.
   */
  ghost predicate First(w: World, s: Store, h: Hash) {
    && Complete(w, s.bodies.Keys, h, w(h).height)
    && LastTx(Tip(w, h)[..w(h).height]) <= 0
  }

  lemma LandedKeys(chain: seq<Block>, b: Block)
    requires ValidChain(chain) && Accepts(chain, b)
    ensures Apply(map[], DeltaOf(b)) == Apply(Replay(chain), DeltaOf(b)) <==> Replay(chain) == map[]
  {
    hide Replay, Apply, Accepts, ValidChain;
    if n :| n in Replay(chain) {
      ApplyAt(map[], DeltaOf(b));
      ApplyAt(Replay(chain), DeltaOf(b));
      ReplayKeepsInv(chain);
      if n in NamesOf(Additions(b)) {
        AdditionsAreFresh(chain, b, n);
      }
      assert n in Apply(Replay(chain), DeltaOf(b)) && n !in Apply(map[], DeltaOf(b));
    } else {
      assert Replay(chain) == map[];
    }
  }

  /**
   On a store without a peak, confirming a stored block leaves the ledger law exactly when the block
   is fit to be first; otherwise the coins its ancestors created are missing.
   */
  lemma FirstExactly(w: World, s: Store, h: Hash)
    requires GoodStore(w, s) && s.peak.None? && h in s.bodies
    ensures GoodStore(w, Land(w, s, h)) <==> First(w, s, h)
    ensures First(w, s, h) ==> Land(w, s, h) == PeakAt(w, s, h)
  {
    hide Replay, Apply, DeltaOf, GoodRows, VettedAt;
    StoredIsLinked(w, s, h);
    LandIsShaped(w, s, h);
    hide GoodArchive, Complete, Vetted;
    if Complete(w, s.bodies.Keys, h, w(h).height) {
      var chain, n := Tip(w, h), w(h).height;
      CompleteIsValid(w, s, h);
      ValidPrefix(chain, n);
      assert chain[..n] + [w(h)] == chain;
      ReplayStep(chain[..n], w(h));
      LandedKeys(chain[..n], w(h));
      EmptyUntilSecond(chain[..n]);
    }
  }

  lemma LandIsShaped(w: World, s: Store, h: Hash)
    requires Shaped(w, s) && h in s.records
    ensures Shaped(w, Land(w, s, h)) && (Vetted(w, Land(w, s, h)) <==> Vetted(w, s))
  {
    hide GoodArchive, Tip;
    GoodArchiveDependsOnRows(w, s, Land(w, s, h));
  }

  // ---- Extensions and reorgs ------------------------------------------------------------------------------

  /** A stored block on top of the peak continues the replay. */
  lemma ExtensionReplays(w: World, s: Store, h: Hash)
    requires GoodStore(w, s) && h in s.bodies && Extends(w, s, h)
    ensures GoodStore(w, Land(w, s, h)) && Land(w, s, h) == PeakAt(w, s, h)
  {
    hide Replay, Apply, DeltaOf, GoodRows, Vetted;
    var p := s.peak.value.hash;
    StoredIsLinked(w, s, h);
    LandIsShaped(w, s, h);
    assert Linked(w, s.records.Keys, p);
    hide GoodArchive;
    assert Tip(w, h) == Tip(w, p) + [w(h)];
    ReplayStep(Tip(w, p), w(h));
  }

  lemma {:induction false} OntoReplays(chain: seq<Block>, k: nat)
    requires k <= |chain|
    ensures Onto(Replay(chain[..k]), chain[k..]) == Replay(chain)
    decreases |chain|
  {
    hide Apply, DeltaOf;
    if k == |chain| {
      assert chain[..k] == chain && chain[k..] == [];
    } else {
      var m := |chain| - 1;
      OntoReplays(chain[..m], k);
      assert chain[..m][..k] == chain[..k] && chain[..m][k..] == chain[k..][..m - k];
    }
  }

  /** The fork block is on both chains, at one height, above one prefix. */
  lemma ForkIsShared(w: World, s: Store, h: Hash)
    requires Shaped(w, s) && s.peak.Some? && h in s.records && ForkOf(s.main, Tip(w, h)) >= 0
    ensures var chain, f, top := Tip(w, h), ForkOf(s.main, Tip(w, h)), Tip(w, s.peak.value.hash);
            0 <= f < |top| && f < |chain| && top[..f + 1] == chain[..f + 1]
  {
    var f, p := ForkOf(s.main, Tip(w, h)), s.peak.value.hash;
    ForkInRange(s.main, Tip(w, h));
    hide ValidChain, Complete, GoodRows, ForkOf;
    var j := PlaceOf(Tip(w, p), Tip(w, h)[f].hash);
    CommonPrefix(w, s.records.Keys, h, p, f, j);
  }

  lemma ForkInRange(main: set<Hash>, chain: seq<Block>)
    ensures var f := ForkOf(main, chain); -1 <= f < |chain| && (f >= 0 ==> chain[f].hash in main)
  {
  }

  /** Rolling the main chain's table back to a branch's fork gives the replay of the shared blocks. */
  lemma ForkTable(w: World, s: Store, h: Hash)
    requires GoodStore(w, s) && s.peak.Some? && h in s.records && ForkOf(s.main, Tip(w, h)) >= 0
    ensures var chain, f := Tip(w, h), ForkOf(s.main, Tip(w, h)); RollbackTo(s.coins, f) == Replay(chain[..f + 1])
  {
    hide Replay, ValidChain, Complete, Tip, ForkOf, GoodArchive, RollbackTo;
    MainIsValid(w, s);
    ForkIsShared(w, s, h);
    RollbackUndoesSuffix(Tip(w, s.peak.value.hash), ForkOf(s.main, Tip(w, h)));
  }

  /** Every flagged block has its whole ancestry stored. */
  lemma MainIsComplete(w: World, s: Store, h: Hash)
    requires GoodStore(w, s) && h in s.main
    ensures Complete(w, s.bodies.Keys, h, w(h).height)
  {
    hide Replay, ValidChain;
    var p := s.peak.value.hash;
    var j := PlaceOf(Tip(w, p), h);
    assert Linked(w, s.records.Keys, p);
    BranchAt(w, s.records.Keys, p, j);
    CompleteAt(w, s.bodies.Keys, p, w(p).height, j);
    if j < w(p).height {
      BranchAt(w, s.records.Keys, p, j + 1);
    }
  }

  lemma {:induction false} CompleteUp(w: World, s: Store, h: Hash, f: nat, i: nat)
    requires GoodArchive(w, s) && h in s.records && f <= i <= w(h).height
    requires Complete(w, s.bodies.Keys, Tip(w, h)[f].hash, f)
    requires forall j {:trigger StoredAt(w, s, h, j)} :: f < j <= i ==> StoredAt(w, s, h, j)
    ensures Complete(w, s.bodies.Keys, Tip(w, h)[i].hash, i)
    decreases i
  {
    hide Tip, GoodRows;
    if i > f {
      CompleteUp(w, s, h, f, i - 1);
      BranchAt(w, s.records.Keys, h, i);
      BranchAt(w, s.records.Keys, h, i - 1);
      assert StoredAt(w, s, h, i);
    }
  }

  lemma {:induction false} CompleteDown(w: World, s: Store, h: Hash, i: nat)
    requires GoodArchive(w, s) && h in s.records && i <= w(h).height && Complete(w, s.bodies.Keys, h, w(h).height)
    ensures Complete(w, s.bodies.Keys, Tip(w, h)[i].hash, i) && StoredAt(w, s, h, i)
    decreases w(h).height - i
  {
    hide Tip, GoodRows;
    BranchAt(w, s.records.Keys, h, i);
    if i < w(h).height {
      CompleteDown(w, s, h, i + 1);
      BranchAt(w, s.records.Keys, h, i + 1);
    } else {
      StartOfWalk(w, s, h);
    }
  }

  /** Under the ledger law a branch can be replayed exactly when it is fully stored and meets the main chain. */
  lemma ReachableIsComplete(w: World, s: Store, h: Hash)
    requires GoodStore(w, s) && h in s.records
    ensures Reachable(w, s, h) <==> ForkOf(s.main, Tip(w, h)) >= 0 && Complete(w, s.bodies.Keys, h, w(h).height)
  {
    hide Tip, GoodRows, Replay, ForkOf, Complete, StoredAt;
    var f := ForkOf(s.main, Tip(w, h));
    ForkInRange(s.main, Tip(w, h));
    StartOfWalk(w, s, h);
    if f >= 0 {
      if Reachable(w, s, h) {
        BranchAt(w, s.records.Keys, h, f);
        MainIsComplete(w, s, Tip(w, h)[f].hash);
        CompleteUp(w, s, h, f, w(h).height);
      }
      if Complete(w, s.bodies.Keys, h, w(h).height) {
        forall i | f < i <= w(h).height
          ensures StoredAt(w, s, h, i)
        {
          CompleteDown(w, s, h, i);
        }
      }
    }
  }

  /** A reorg to a reachable branch gives the replay of that branch. */
  lemma SwitchReplays(w: World, s: Store, h: Hash)
    requires GoodStore(w, s) && s.peak.Some? && h in s.records && Reachable(w, s, h)
    ensures GoodStore(w, Switch(w, s, h)) && Switch(w, s, h) == PeakAt(w, s, h)
  {
    hide Tip, GoodRows, Replay, ForkOf, Complete, StoredAt, RollbackTo, Onto;
    var f := ForkOf(s.main, Tip(w, h));
    ForkInRange(s.main, Tip(w, h));
    ForkTable(w, s, h);
    OntoReplays(Tip(w, h), f + 1);
    ReachableIsComplete(w, s, h);
    GoodArchiveDependsOnRows(w, s, Switch(w, s, h));
  }

  /** Every successful step of fork choice keeps the ledger law, a first block only if it is fit to be. */
  lemma StepReplays(w: World, s: Store, h: Hash)
    requires GoodStore(w, s) && h in s.bodies && !Fails(w, s, h) && (s.peak.None? ==> First(w, s, h))
    ensures GoodStore(w, Step(w, s, h))
    ensures Heavier(w, s, h) ==> Step(w, s, h) == PeakAt(w, s, h)
  {
    hide GoodStore, GoodArchive, First, Reachable, Tip, Land, Switch, PeakAt;
    StoredIsRecorded(w, s, h);
    if s.peak.None? {
      FirstExactly(w, s, h);
    } else if Heavier(w, s, h) && Extends(w, s, h) {
      ExtensionReplays(w, s, h);
    } else if Heavier(w, s, h) {
      SwitchReplays(w, s, h);
    }
  }

  lemma StoredIsRecorded(w: World, s: Store, h: Hash)
    requires GoodStore(w, s) && h in s.bodies
    ensures h in s.records
  {
    hide Replayed;
    StoredIsLinked(w, s, h);
  }

  // ---- A first block that was not fit ------------------------------------------------------------------------

  /** The peak's branch is not fully stored, or the table lacks a coin that branch created. */
  ghost predicate Unpaid(w: World, s: Store) {
    s.peak.Some? && var p := s.peak.value.hash;
    !Complete(w, s.bodies.Keys, p, w(p).height) || exists n :: n in Replay(Tip(w, p)) && n !in s.coins
  }

  lemma UnpaidIsNotReplayed(w: World, s: Store)
    requires Unpaid(w, s)
    ensures !Replayed(w, s)
  {
  }

  lemma ApplyKeys(t: Table, b: Block)
    ensures Apply(t, DeltaOf(b)).Keys == t.Keys + NamesOf(Additions(b))
  {
    ApplyAt(t, DeltaOf(b));
  }

  /** A first block that is not fit leaves a table that lacks a coin of its branch. */
  lemma UnfitIsUnpaid(w: World, s: Store, h: Hash)
    requires GoodStore(w, s) && s.peak.None? && h in s.bodies && !First(w, s, h)
    ensures Unpaid(w, Land(w, s, h))
  {
    hide Replay, Apply, DeltaOf, GoodRows, VettedAt;
    StoredIsLinked(w, s, h);
    if Complete(w, s.bodies.Keys, h, w(h).height) {
      var chain, m := Tip(w, h), w(h).height;
      CompleteIsValid(w, s, h);
      ValidPrefix(chain, m);
      assert chain[..m] + [w(h)] == chain;
      EmptyUntilSecond(chain[..m]);
      var n :| n in Replay(chain[..m]);
      MissingStays(map[], chain[..m], w(h), n);
      assert n in Replay(Tip(w, h)) && n !in Land(w, s, h).coins;
    }
  }

  /** A coin missing from the table stays missing when the next valid block of the branch lands. */
  lemma MissingStays(t: Table, chain: seq<Block>, b: Block, n: Name)
    requires ValidChain(chain) && Accepts(chain, b) && n in Replay(chain) && n !in t
    ensures n in Replay(chain + [b]) && n !in Apply(t, DeltaOf(b))
  {
    hide Replay, Apply, DeltaOf, Accepts, ValidChain;
    ReplayStep(chain, b);
    ReplayKeepsInv(chain);
    ApplyKeys(Replay(chain), b);
    ApplyKeys(t, b);
    if n in NamesOf(Additions(b)) {
      AdditionsAreFresh(chain, b, n);
    }
  }

  /** Extending the peak never repairs such a table; only a reorg below the missing coins can. */
  lemma UnpaidStays(w: World, s: Store, h: Hash)
    requires Shaped(w, s) && Vetted(w, s) && Unpaid(w, s) && h in s.bodies && Extends(w, s, h)
    ensures Unpaid(w, Land(w, s, h))
  {
    hide Replay, Apply, DeltaOf, GoodRows, VettedAt;
    var p := s.peak.value.hash;
    StoredIsLinked(w, s, h);
    assert Linked(w, s.records.Keys, p);
    assert Tip(w, h) == Tip(w, p) + [w(h)];
    if Complete(w, s.bodies.Keys, h, w(h).height) {
      CompleteIsValid(w, s, h);
      ValidPrefix(Tip(w, h), w(h).height);
      assert Tip(w, h)[..w(h).height] == Tip(w, p);
      var n :| n in Replay(Tip(w, p)) && n !in s.coins;
      MissingStays(s.coins, Tip(w, p), w(h), n);
      assert n in Replay(Tip(w, h)) && n !in Land(w, s, h).coins;
    }
  }
}
