/**
 The main-chain flags: confirmation lookup, the fork point of a branch, and the pointer flip that
 makes a new peak's ancestry the main chain.
 */
module MainChain {
  import opened Coins
  import opened Chain
  import opened Archive

  /** The last block of `chain` that is flagged main, or -1. */
  ghost function ForkOf(main: set<Hash>, chain: seq<Block>): (f: int)
    ensures -1 <= f < |chain|
    ensures f >= 0 ==> chain[f].hash in main
    ensures forall i :: f < i < |chain| ==> chain[i].hash !in main
  {
    if chain == [] then -1
    else if chain[|chain| - 1].hash in main then |chain| - 1
    else ForkOf(main, chain[..|chain| - 1])
  }

  /** The flags are empty, or the ancestry of one archived block. */
  ghost predicate FlagsAreAncestry(w: World, s: Store) {
    s.main == {} || exists t :: t in s.records && s.main == HashesOf(Tip(w, t))
  }

  lemma GoodFlags(w: World, s: Store)
    requires PeakFlags(w, s)
    ensures FlagsAreAncestry(w, s)
  {
  }

  /** A flagged block's whole ancestry is flagged, and no two flagged blocks share a height. */
  lemma FlaggedAncestry(w: World, s: Store, h: Hash, i: nat)
    requires AllLinked(w, s.records.Keys) && FlagsAreAncestry(w, s)
    requires h in s.main && i <= w(h).height
    ensures h in s.records && Tip(w, h)[i].hash in s.main
    ensures forall g :: g in s.main && w(g).height == w(h).height ==> g == h
  {
    var t :| t in s.records && s.main == HashesOf(Tip(w, t));
    var b :| b in Tip(w, t) && b.hash == h;
    var j :| 0 <= j <= w(t).height && Tip(w, t)[j] == b;
    BranchAt(w, s.records.Keys, t, j);
    assert Tip(w, h)[i] == Tip(w, t)[i];
    forall g | g in s.main && w(g).height == w(h).height
      ensures g == h
    {
      var c :| c in Tip(w, t) && c.hash == g;
      var k :| 0 <= k <= w(t).height && Tip(w, t)[k] == c;
      BranchAt(w, s.records.Keys, t, k);
    }
  }

  /** A branch is flagged exactly up to its fork point. */
  lemma FlaggedUpToFork(w: World, s: Store, h: Hash, i: nat)
    requires AllLinked(w, s.records.Keys) && FlagsAreAncestry(w, s)
    requires h in s.records && i <= w(h).height
    ensures Tip(w, h)[i].hash in s.main <==> i <= ForkOf(s.main, Tip(w, h))
  {
    var chain := Tip(w, h);
    var f := ForkOf(s.main, chain);
    if i <= f {
      BranchAt(w, s.records.Keys, h, f);
      FlaggedAncestry(w, s, chain[f].hash, i);
      assert chain[i] == Tip(w, chain[f].hash)[i];
    }
  }

  /** The main-chain row at a height, if any row there is flagged. */
  method RecordByHeight(s: Store, height: nat) returns (r: Option<BlockRecord>)
    requires forall h :: h in s.main ==> h in s.records
    ensures r.Some? ==> exists h :: h in s.main && s.records[h] == r.value && r.value.height == height
    ensures r.None? ==> forall h :: h in s.main ==> s.records[h].height != height
  {
    var rows := set h | h in s.main && s.records[h].height == height;
    if rows == {} {
      r := None;
      assert forall h :: h in s.main && s.records[h].height == height ==> h in rows;
    } else {
      var h :| h in rows;
      r := Some(s.records[h]);
    }
  }

  /** Confirmed means: the main-chain row at the block's own height is the block itself. */
  method IsConfirmed(s: Store, h: Hash, ghost w: World) returns (r: bool)
    requires s.main <= s.records.Keys
    ensures h !in s.records ==> !r
    ensures GoodArchive(w, s) && FlagsAreAncestry(w, s) ==> (r <==> h in s.main)
  {
    if h !in s.records {
      return false;
    }
    var row := RecordByHeight(s, s.records[h].height);
    match row {
      case None =>
        r := false;
      case Some(found) =>
        r := found.hash == h;
        if GoodArchive(w, s) && FlagsAreAncestry(w, s) {
          ghost var g :| g in s.main && s.records[g] == found && found.height == s.records[h].height;
          SameHeightSameBlock(w, s, g, h);
        }
    }
  }

  lemma SameHeightSameBlock(w: World, s: Store, g: Hash, h: Hash)
    requires GoodArchive(w, s) && FlagsAreAncestry(w, s)
    requires g in s.main && g in s.records && h in s.records && s.records[g].height == s.records[h].height
    ensures s.records[g].hash == h <==> h in s.main
  {
    hide RecordOf, ValidChain;
    assert GoodRows(w, s, g) && Linked(w, s.records.Keys, g);
    assert GoodRows(w, s, h) && Linked(w, s.records.Keys, h);
    RecordFields(w(g));
    RecordFields(w(h));
    FlaggedAncestry(w, s, g, 0);
  }

  lemma RecordFields(b: Block)
    ensures RecordOf(b).hash == b.hash && RecordOf(b).prev == b.prev
    ensures RecordOf(b).height == b.height && RecordOf(b).weight == b.weight
  {
  }

  /** The hash a parent walk from `tip` stands on after reaching height `k`, or below genesis. */
  ghost function WalkAt(w: World, tip: Hash, k: int): Hash
    requires -1 <= k <= w(tip).height
  {
    if k >= 0 then Tip(w, tip)[k].hash else GENESIS_CHALLENGE
  }

  /** One parent step over archived records, which cannot continue below genesis. */
  lemma WalkStep(w: World, s: Store, tip: Hash, k: int)
    requires GoodArchive(w, s) && tip in s.records && -1 <= k <= w(tip).height
    ensures WalkAt(w, tip, k) in s.records <==> k >= 0
    ensures k >= 0 ==> var r := s.records[WalkAt(w, tip, k)]; r.height == k && r.prev == WalkAt(w, tip, k - 1)
  {
    hide RecordOf, ValidChain;
    if k >= 0 {
      BranchAt(w, s.records.Keys, tip, k);
      var h := WalkAt(w, tip, k);
      assert GoodRows(w, s, h) && Linked(w, s.records.Keys, h);
      RecordFields(w(h));
    } else {
      assert !Linked(w, s.records.Keys, GENESIS_CHALLENGE);
    }
  }

  /** A row without an archived parent, on a store that has no flags yet. */
  predicate Cut(s: Store, tip: Hash) {
    s.main == {} && tip in s.records && s.records[tip].prev !in s.records
  }

  /** The height of the deepest flagged ancestor of `tip`, or -1. */
  method FindFork(s: Store, tip: Hash, ghost w: World) returns (forkHeight: int)
    requires (GoodArchive(w, s) && tip in s.records) || Cut(s, tip)
    ensures forkHeight == if GoodArchive(w, s) then ForkOf(s.main, Tip(w, tip)) else -1
  {
    hide GoodArchive, Tip;
    ghost var good, f := GoodArchive(w, s), ForkOf(s.main, Tip(w, tip));
    var cursor := tip;
    ghost var k: int := w(tip).height;
    if good {
      WalkStep(w, s, tip, k);
      StartOfWalk(w, s, tip);
    }
    while cursor in s.records
      invariant good ==> f <= k <= w(tip).height && cursor == WalkAt(w, tip, k)
      invariant !good ==> cursor == tip || cursor == s.records[tip].prev
      decreases if good then k + 1 else if cursor == tip then 1 else 0
    {
      if good {
        WalkStep(w, s, tip, k);
      }
      if cursor in s.main {
        return s.records[cursor].height;
      }
      cursor := s.records[cursor].prev;
      k := k - 1;
    }
    if good {
      WalkStep(w, s, tip, k);
    }
    return -1;
  }

  lemma StartOfWalk(w: World, s: Store, tip: Hash)
    requires GoodArchive(w, s) && tip in s.records
    ensures WalkAt(w, tip, w(tip).height) == tip
  {
    assert Linked(w, s.records.Keys, tip);
  }

  /** Flag the ancestry of `tip` back to the first block already flagged, or as far as it is archived. */
  method Relink(s: Store, tip: Hash, flags: set<Hash>, ghost w: World, ghost f: int) returns (main: set<Hash>, links: nat)
    requires if GoodArchive(w, s) then tip in s.records && -1 <= f <= w(tip).height && flags == HashesOf(Tip(w, tip)[..f + 1])
             else Cut(s, tip) && flags == {}
    ensures GoodArchive(w, s) ==> main == HashesOf(Tip(w, tip)) && links == w(tip).height - f
    ensures !GoodArchive(w, s) ==> main == {tip}
  {
    hide GoodArchive, Tip, HashesOf;
    ghost var good, chain := GoodArchive(w, s), Tip(w, tip);
    main, links := flags, 0;
    var cursor := tip;
    ghost var k: int := w(tip).height;
    if good {
      StartOfWalk(w, s, tip);
      HashesSplit(chain, k);
    }
    while cursor in s.records && cursor !in main
      invariant good ==> f <= k <= w(tip).height && cursor == WalkAt(w, tip, k)
      invariant good ==> main == flags + HashesOf(chain[k + 1..]) && links == w(tip).height - k
      invariant !good ==> (cursor == tip && main == {}) || (cursor == s.records[tip].prev && main == {tip})
      decreases if good then k + 1 else if cursor == tip then 1 else 0
    {
      if good {
        RelinkStep(w, s, tip, k, f, flags, main);
      }
      main := main + {cursor};
      links := links + 1;
      cursor := s.records[cursor].prev;
      k := k - 1;
    }
    if good {
      WalkStep(w, s, tip, k);
      if k > f {
        NotAbove(w, s, tip, k, f);
        assert false;
      }
      HashesSplit(chain, f);
    }
  }

  /** One link of the new ancestry, strictly above the fork. */
  lemma RelinkStep(w: World, s: Store, tip: Hash, k: int, f: int, flags: set<Hash>, main: set<Hash>)
    requires GoodArchive(w, s) && tip in s.records && -1 <= f <= k <= w(tip).height
    requires flags == HashesOf(Tip(w, tip)[..f + 1]) && main == flags + HashesOf(Tip(w, tip)[k + 1..])
    requires WalkAt(w, tip, k) in s.records && WalkAt(w, tip, k) !in main
    ensures f < k && s.records[WalkAt(w, tip, k)].prev == WalkAt(w, tip, k - 1)
    ensures main + {WalkAt(w, tip, k)} == flags + HashesOf(Tip(w, tip)[k..])
  {
    hide GoodArchive, Tip, HashesOf;
    WalkStep(w, s, tip, k);
    HashesSplit(Tip(w, tip), k);
  }

  lemma HashesSplit(chain: seq<Block>, k: int)
    requires -1 <= k < |chain|
    ensures HashesOf(chain) == HashesOf(chain[..k + 1]) + HashesOf(chain[k + 1..])
    ensures k >= 0 ==> HashesOf(chain[k..]) == {chain[k].hash} + HashesOf(chain[k + 1..])
    ensures k >= 0 ==> chain[k].hash in HashesOf(chain[..k + 1])
    ensures k == |chain| - 1 ==> HashesOf(chain[k + 1..]) == {}
  {
    assert chain == chain[..k + 1] + chain[k + 1..];
    if k >= 0 {
      assert chain[k..] == [chain[k]] + chain[k + 1..];
      assert chain[..k + 1][k] == chain[k];
    }
  }

  /**
   Make `tip` the peak: find the deepest flagged ancestor, retire every flag above it, then flag the
   new ancestry back to it. The flags become exactly the tip's ancestry; `links` counts the flips.
   */
  method SetPeak(s: Store, tip: Hash, ghost w: World) returns (r: Store, links: nat)
    requires (GoodArchive(w, s) && FlagsAreAncestry(w, s) && tip in s.records) || Cut(s, tip)
    ensures r == s.(main := r.main, peak := Some(Peak(tip, s.records[tip].height)))
    ensures GoodArchive(w, s) ==> r == s.(main := HashesOf(Tip(w, tip)), peak := Some(Peak(tip, w(tip).height)))
    ensures GoodArchive(w, s) ==> links == w(tip).height - ForkOf(s.main, Tip(w, tip))
    ensures !GoodArchive(w, s) ==> r.main == {tip}
  {
    var forkHeight := FindFork(s, tip, w);
    var kept := set h | h in s.main && h in s.records && s.records[h].height <= forkHeight;
    if GoodArchive(w, s) {
      CutIsUnflagged(w, s, tip);
      RetiredFlags(w, s, tip, kept);
      StartOfWalk(w, s, tip);
      WalkStep(w, s, tip, w(tip).height);
    }
    hide GoodArchive, FlagsAreAncestry, Tip, HashesOf, ForkOf;
    var main;
    main, links := Relink(s, tip, kept, w, forkHeight);
    r := s.(main := main, peak := Some(Peak(tip, s.records[tip].height)));
  }

  lemma CutIsUnflagged(w: World, s: Store, tip: Hash)
    requires FlagsAreAncestry(w, s) || Cut(s, tip)
    ensures FlagsAreAncestry(w, s)
  {
  }

  /** Dropping the flags above the fork leaves the common ancestry. */
  lemma RetiredFlags(w: World, s: Store, tip: Hash, kept: set<Hash>)
    requires GoodArchive(w, s) && FlagsAreAncestry(w, s) && tip in s.records
    requires kept == set h | h in s.main && h in s.records && s.records[h].height <= ForkOf(s.main, Tip(w, tip))
    ensures kept == HashesOf(Tip(w, tip)[..ForkOf(s.main, Tip(w, tip)) + 1])
  {
    hide RecordOf, ValidChain;
    var chain := Tip(w, tip);
    var f := ForkOf(s.main, chain);
    forall h | h in kept
      ensures h in HashesOf(chain[..f + 1])
    {
      assert GoodRows(w, s, h);
      RecordFields(w(h));
      var i := w(h).height;
      FlaggedUpToFork(w, s, tip, i);
      BranchAt(w, s.records.Keys, tip, i);
      FlaggedAncestry(w, s, h, 0);
      assert chain[i].hash in s.main && w(chain[i].hash).height == i;
      assert chain[..f + 1][i] == chain[i];
    }
    forall h | h in HashesOf(chain[..f + 1])
      ensures h in kept
    {
      var i :| 0 <= i <= f && chain[i].hash == h;
      FlaggedUpToFork(w, s, tip, i);
      BranchAt(w, s.records.Keys, tip, i);
      assert GoodRows(w, s, h);
      RecordFields(w(h));
    }
  }

  /** A block above the fork is not among the blocks up to the fork, nor among those above itself. */
  lemma NotAbove(w: World, s: Store, tip: Hash, k: nat, f: int)
    requires GoodArchive(w, s) && tip in s.records && -1 <= f < k <= w(tip).height
    ensures Tip(w, tip)[k].hash !in HashesOf(Tip(w, tip)[..f + 1]) + HashesOf(Tip(w, tip)[k + 1..])
  {
    var chain := Tip(w, tip);
    BranchAt(w, s.records.Keys, tip, k);
    forall i | 0 <= i < |chain| && i != k
      ensures chain[i].hash != chain[k].hash
    {
      BranchAt(w, s.records.Keys, tip, i);
    }
  }
}
