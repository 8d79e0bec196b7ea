/**
 The engine's walks over a branch that is not (yet) on the main chain: the fork view a block is
 validated against, and the branch a reorg replays. Deltas come from the in-memory overlays when
 present and are rebuilt from the stored body otherwise. Both walks end on every store, even a
 corrupt one, because each step must lower the height; what they return is stated for a store
 whose rows are consistent.
 */
module BranchWalk {
  import opened Coins
  import opened Chain
  import opened Archive
  import opened MainChain
  import opened ForkChoice
  import opened LedgerLaw
  import opened ForkOverlay

  datatype NodeError = Invalid | UnknownParent | NotFound | Consensus(rule: RuleError)

  datatype RuleError =
    | InvalidRewardCoins
    | CoinAmountExceedsMaximum
    | DuplicateOutput
    | DoubleSpendInBlock
    | Unspendable(error: SpendError)
    | MintingCoin
    | ReserveFeeConditionFailed
    | InvalidBlockFeeAmount

  type Deltas = map<Hash, BlockDelta>

  ghost predicate DeltasAgree(w: World, ds: Deltas, view: Store) {
    forall h {:trigger h in ds} :: h in ds ==> h in view.bodies && ds[h] == DeltaOf(w(h))
  }

  /**
   `view` is the archive including rows of an open staging batch: the same ledger as the durable
   store, and every row that is not durable yet belongs to a staged block. Pending deltas are those
   of durable blocks.
   */
  ghost predicate ShapedView(w: World, s: Store, staged: Deltas, pending: Deltas, view: Store) {
    && Shaped(w, s) && Shaped(w, view)
    && view.main == s.main && view.peak == s.peak && view.coins == s.coins
    && (forall h {:trigger h in s.records} :: h in s.records ==> h in view.records)
    && (forall h {:trigger h in s.bodies} :: h in s.bodies ==> h in view.bodies)
    && (forall h {:trigger h in s.bodies} :: h in s.records && h !in s.bodies && h !in staged ==> h !in view.bodies)
    && (forall h {:trigger h in staged} :: h in view.records ==> h in s.records || h in staged)
    && DeltasAgree(w, staged, view) && DeltasAgree(w, pending, s)
  }

  /** The same, with stored spends validated and the ledger law. */
  ghost predicate GoodView(w: World, s: Store, staged: Deltas, pending: Deltas, view: Store) {
    ShapedView(w, s, staged, pending, view) && Vetted(w, s) && Vetted(w, view) && Replayed(w, s)
  }

  lemma GoodViewStores(w: World, s: Store, staged: Deltas, pending: Deltas, view: Store)
    requires GoodView(w, s, staged, pending, view)
    ensures GoodStore(w, s) && GoodStore(w, view)
  {
    hide Shaped, Replay;
    if s.peak.Some? {
      CompleteGrows(w, s.bodies.Keys, view.bodies.Keys, s.peak.value.hash, w(s.peak.value.hash).height);
    }
  }

  /** The branch agrees with the main chain up to `f`. */
  ghost predicate SharesPrefix(w: World, s: Store, chain: seq<Block>, f: int) {
    -1 <= f < |chain| && f < |MainOf(w, s)| && chain[..f + 1] == MainOf(w, s)[..f + 1]
  }

  lemma SharesNothing(w: World, s: Store, chain: seq<Block>)
    ensures SharesPrefix(w, s, chain, -1)
  {
    hide Tip;
  }

  /** Rebuild a stored block's delta from its record and body. */
  method DeltaFromStore(s: Store, h: Hash, ghost w: World) returns (r: Result<BlockDelta, NodeError>)
    ensures h !in s.records ==> r.Err?
    ensures GoodArchive(w, s) ==> (r.Ok? <==> h in s.bodies) && (r.Ok? ==> r.value == DeltaOf(w(h)))
  {
    hide DeltaOf, ValidChain, Complete, RecordOf;
    assert GoodArchive(w, s) ==> GoodRows(w, s, h);
    if h !in s.records || h !in s.bodies {
      return Err(Invalid);
    }
    return Ok(DeltaOf(s.bodies[h]));
  }

  lemma DeltaFields(b: Block)
    ensures DeltaOf(b).hash == b.hash && DeltaOf(b).prev == b.prev && DeltaOf(b).height == b.height
    ensures DeltaOf(b).weight == b.weight && DeltaOf(b).additions == Additions(b) && DeltaOf(b).removals == Removals(b)
    ensures DeltaOf(b).record == RecordOf(b)
  {
  }

  // ---- The fork view ------------------------------------------------------------------------------

  /** What is known when the walk stands on block `k` of the parent's branch. */
  ghost predicate WalkInv(w: World, view: Store, parent: Hash, v: ForkView, k: int) {
    && 0 <= k <= w(parent).height
    && (Complete(w, view.bodies.Keys, parent, w(parent).height) <==>
          Complete(w, view.bodies.Keys, Tip(w, parent)[k].hash, k))
    && (Complete(w, view.bodies.Keys, parent, w(parent).height) ==> ViewOf(Tip(w, parent), v.(forkHeight := k)))
  }

  lemma WalkStart(w: World, view: Store, parent: Hash, v: ForkView)
    requires GoodArchive(w, view) && parent in view.records && v.additions == map[] && v.removals == {}
    ensures WalkInv(w, view, parent, v, w(parent).height)
    ensures Tip(w, parent)[w(parent).height].hash == parent
  {
    hide GoodRows;
    assert Linked(w, view.records.Keys, parent);
    var chain := Tip(w, parent);
    assert chain[w(parent).height + 1..] == [];
  }

  lemma WalkMove(w: World, view: Store, parent: Hash, v: ForkView, v': ForkView, k: nat)
    requires GoodArchive(w, view) && Vetted(w, view) && parent in view.records && WalkInv(w, view, parent, v, k)
    requires Tip(w, parent)[k].hash in view.bodies
    requires v'.removals == v.removals + ToSet(Removals(Tip(w, parent)[k]))
    requires v'.additions.Keys == v.additions.Keys + NamesOf(Additions(Tip(w, parent)[k]))
    requires forall n :: n in v'.additions ==>
               if n in NamesOf(Additions(Tip(w, parent)[k]))
               then v'.additions[n] in Additions(Tip(w, parent)[k]) && Id(v'.additions[n].coin) == n
               else v'.additions[n] == v.additions[n]
    ensures k > 0 ==> WalkInv(w, view, parent, v', k - 1)
    ensures k == 0 ==> Complete(w, view.bodies.Keys, parent, w(parent).height) && ViewOf(Tip(w, parent), v'.(forkHeight := -1))
  {
    hide GoodRows, ViewOf, VettedAt;
    BranchAt(w, view.records.Keys, parent, k);
    if Complete(w, view.bodies.Keys, parent, w(parent).height) {
      CompleteIsValid(w, view, parent);
      ViewGrows(Tip(w, parent), v.(forkHeight := k), v'.(forkHeight := k - 1), k);
    }
  }

  /** A confirmed block has a complete branch, which the main chain shares up to it. */
  lemma WalkStop(w: World, view: Store, parent: Hash, v: ForkView, k: nat)
    requires GoodStore(w, view) && parent in view.records && WalkInv(w, view, parent, v, k)
    requires Tip(w, parent)[k].hash in view.main
    ensures Complete(w, view.bodies.Keys, parent, w(parent).height) && ViewOf(Tip(w, parent), v.(forkHeight := k))
    ensures SharesPrefix(w, view, Tip(w, parent), k)
  {
    hide GoodRows, ViewOf, Replay, ValidChain;
    var h, p := Tip(w, parent)[k].hash, view.peak.value.hash;
    var b :| b in Tip(w, p) && b.hash == h;
    var j :| 0 <= j <= w(p).height && Tip(w, p)[j] == b;
    assert Linked(w, view.records.Keys, p);
    CommonPrefix(w, view.records.Keys, parent, p, k, j);
    CompleteAt(w, view.bodies.Keys, p, w(p).height, j);
    if j < w(p).height {
      BranchAt(w, view.records.Keys, p, j + 1);
    }
    BranchAt(w, view.records.Keys, p, j);
  }

  lemma WalkBroken(w: World, view: Store, parent: Hash, v: ForkView, cursor: Hash, lastHeight: nat)
    requires ForkAtCursor(w, view, parent, v, cursor, lastHeight) && !Complete(w, view.bodies.Keys, cursor, lastHeight - 1)
    ensures !Complete(w, view.bodies.Keys, parent, w(parent).height)
  {
    hide Complete, ViewOf, Tip;
  }

  lemma WalkStops(w: World, s: Store, view: Store, parent: Hash, v: ForkView, cursor: Hash, lastHeight: nat)
    requires GoodStore(w, view) && view.peak == s.peak && parent in view.records
    requires ForkAtCursor(w, view, parent, v, cursor, lastHeight) && cursor in view.main
    ensures Complete(w, view.bodies.Keys, parent, w(parent).height) && ViewOf(Tip(w, parent), v.(forkHeight := lastHeight - 1))
    ensures SharesPrefix(w, s, Tip(w, parent), lastHeight - 1)
  {
    hide Complete, ViewOf, Tip, GoodStore, WalkInv;
    WalkStop(w, view, parent, v, lastHeight - 1);
  }

  lemma CursorOnBranch(w: World, view: Store, parent: Hash, v: ForkView, cursor: Hash, lastHeight: int)
    requires ForkAtCursor(w, view, parent, v, cursor, lastHeight)
    ensures 0 < lastHeight <= w(parent).height + 1 && cursor == Tip(w, parent)[lastHeight - 1].hash
  {
    hide WalkInv, Tip;
  }

  datatype Ancestor =
    | Unapplied(delta: BlockDelta)
    | Confirmed(height: nat)
    | Unstored
    | Unreadable(error: NodeError)

  /** One ancestor as the walk sees it: overlays first, then the store. */
  method FetchAncestor(s: Store, staged: Deltas, pending: Deltas, cursor: Hash,
                       ghost w: World, ghost view: Store, ghost parent: Hash, ghost k: int)
    returns (a: Ancestor)
    requires s.main <= s.records.Keys
    ensures GoodView(w, s, staged, pending, view) && parent in view.records && 0 <= k <= w(parent).height
            && cursor == Tip(w, parent)[k].hash ==>
              match a
              case Unapplied(d) => cursor in view.bodies && d == DeltaOf(Tip(w, parent)[k])
              case Confirmed(height) => cursor in view.main && height == k
              case Unstored => false
              case Unreadable(_) => !Complete(w, view.bodies.Keys, cursor, k)
    ensures cursor !in staged && cursor !in pending && cursor !in s.records ==> a == Unstored
  {
    hide Complete, PeakFlags, Replayed, Tip;
    ghost var good := GoodView(w, s, staged, pending, view) && parent in view.records && 0 <= k <= w(parent).height
                      && cursor == Tip(w, parent)[k].hash;
    if good {
      KnownBlock(w, s, staged, pending, view, parent, k);
    }
    hide ShapedView, PeakFlags;
    if cursor in staged {
      return Unapplied(staged[cursor]);
    } else if cursor in pending {
      return Unapplied(pending[cursor]);
    } else if cursor !in s.records {
      return Unstored;
    }
    var confirmed := IsConfirmed(s, cursor, w);
    if confirmed {
      return Ancestor.Confirmed(s.records[cursor].height);
    }
    var rebuilt := DeltaFromStore(s, cursor, w);
    match rebuilt {
      case Ok(d) => return Unapplied(d);
      case Err(e) => return Unreadable(e);
    }
  }

  /**
   The fork view of `block`: walk from its parent to the first confirmed ancestor, folding every
   unapplied delta on the way. On a consistent store it succeeds exactly when every body of the
   branch is stored, and then holds precisely what the branch did above a point it shares with the
   main chain, whichever deltas came from an overlay and whichever were rebuilt.
   */
  method WalkFork(s: Store, staged: Deltas, pending: Deltas, block: Block, ghost w: World, ghost view: Store)
    returns (r: Result<ForkView, NodeError>)
    requires s.main <= s.records.Keys
    ensures block.height == 0 ==> r == Ok(ForkView(-1, map[], {}))
    ensures block.height > 0 && GoodView(w, s, staged, pending, view) && block.prev in view.records
            && w(block.prev).height + 1 == block.height ==>
              && (r.Ok? <==> Complete(w, view.bodies.Keys, block.prev, w(block.prev).height))
              && (r.Ok? ==> ViewOf(Tip(w, block.prev), r.value)
                            && SharesPrefix(w, s, Tip(w, block.prev), r.value.forkHeight))
    ensures block.height > 0 && block.prev !in staged && block.prev !in pending && block.prev !in s.records ==>
              r == Ok(ForkView(block.height - 1, map[], {}))
    ensures r.Ok? ==> forall n :: n in r.value.additions ==> Id(r.value.additions[n].coin) == n
  {
    hide Complete, ViewOf, PeakFlags, Replayed, GoodArchive, Tip;
    var v := ForkView(block.height - 1, map[], {});
    if block.height == 0 {
      return Ok(v.(forkHeight := -1));
    }
    ghost var good := GoodView(w, s, staged, pending, view) && block.prev in view.records
                      && w(block.prev).height + 1 == block.height;
    var cursor := block.prev;
    var lastHeight: int := block.height;
    if good {
      GoodViewStores(w, s, staged, pending, view);
      WalkStart(w, view, block.prev, v);
    }
    assert good ==> GoodStore(w, view) && view.peak == s.peak;
    hide GoodView, ShapedView, GoodStore, Shaped, WalkInv, DeltaOf, NamesOf, SharesPrefix, DeltasAgree, ForkAtCursor;
    while true
      invariant 0 <= lastHeight
      invariant good ==> ForkAtCursor(w, view, block.prev, v, cursor, lastHeight)
      invariant block.prev !in staged && block.prev !in pending && block.prev !in s.records ==>
                  cursor == block.prev && v == ForkView(block.height - 1, map[], {})
      invariant forall n :: n in v.additions ==> Id(v.additions[n].coin) == n
      decreases lastHeight
    {
      if good {
        CursorOnBranch(w, view, block.prev, v, cursor, lastHeight);
      }
      var ancestor := FetchAncestor(s, staged, pending, cursor, w, view, block.prev, lastHeight - 1);
      match ancestor {
        case Unstored =>
          return Ok(v);
        case Unreadable(e) =>
          if good {
            WalkBroken(w, view, block.prev, v, cursor, lastHeight);
          }
          return Err(e);
        case Confirmed(height) =>
          if good {
            WalkStops(w, s, view, block.prev, v, cursor, lastHeight);
          }
          return Ok(v.(forkHeight := height));
        case Unapplied(d) =>
          var folded := FoldDelta(v, d);
          if good {
            ForkAdvance(w, view, block.prev, v, folded, cursor, lastHeight, d);
          }
          v := folded;
          if d.height == 0 {
            SharesNothing(w, s, Tip(w, block.prev));
            return Ok(v.(forkHeight := -1));
          }
          if d.height >= lastHeight {
            return Err(Invalid);
          }
          lastHeight := d.height;
          cursor := d.prev;
      }
    }
  }

  ghost predicate ForkAtCursor(w: World, view: Store, parent: Hash, v: ForkView, cursor: Hash, lastHeight: int) {
    && 0 < lastHeight <= w(parent).height + 1
    && WalkInv(w, view, parent, v, lastHeight - 1)
    && cursor == Tip(w, parent)[lastHeight - 1].hash
  }

  lemma ForkAdvance(w: World, view: Store, parent: Hash, v: ForkView, v': ForkView, cursor: Hash, lastHeight: int, d: BlockDelta)
    requires GoodStore(w, view) && parent in view.records && ForkAtCursor(w, view, parent, v, cursor, lastHeight)
    requires cursor in view.bodies && d == DeltaOf(Tip(w, parent)[lastHeight - 1])
    requires v'.removals == v.removals + ToSet(d.removals)
    requires v'.additions.Keys == v.additions.Keys + NamesOf(d.additions)
    requires forall n :: n in v'.additions ==>
               if n in NamesOf(d.additions) then v'.additions[n] in d.additions && Id(v'.additions[n].coin) == n
               else v'.additions[n] == v.additions[n]
    ensures d.height == lastHeight - 1
    ensures d.height > 0 ==> ForkAtCursor(w, view, parent, v', d.prev, d.height)
    ensures d.height == 0 ==> Complete(w, view.bodies.Keys, parent, w(parent).height) && ViewOf(Tip(w, parent), v'.(forkHeight := -1))
  {
    hide Complete, ViewOf, PeakFlags, Replayed, Tip, WalkInv, DeltaOf, NamesOf;
    BranchAt(w, view.records.Keys, parent, lastHeight - 1);
    DeltaFields(Tip(w, parent)[lastHeight - 1]);
    WalkMove(w, view, parent, v, v', lastHeight - 1);
  }

  /** The facts about the block a walk from `parent` stands on. */
  lemma KnownBlock(w: World, s: Store, staged: Deltas, pending: Deltas, view: Store, parent: Hash, k: nat)
    requires GoodView(w, s, staged, pending, view) && parent in view.records && k <= w(parent).height
    ensures var h := Tip(w, parent)[k].hash;
            && w(h) == Tip(w, parent)[k] && w(h).height == k && h in view.records
            && (h in s.records || h in staged)
            && (h in s.records ==> s.records[h].height == k)
            && (k > 0 ==> w(h).prev == Tip(w, parent)[k - 1].hash)
            && (h in staged ==> staged[h] == DeltaOf(w(h)) && h in view.bodies)
            && (h in pending ==> pending[h] == DeltaOf(w(h)) && h in view.bodies)
            && (h in s.bodies ==> s.bodies[h] == w(h) && h in s.records && h in view.bodies)
            && (h !in staged && h !in pending && h !in s.bodies ==> !Complete(w, view.bodies.Keys, h, k))
    ensures s.main == view.main && GoodArchive(w, s) && FlagsAreAncestry(w, s) && GoodStore(w, view)
  {
    hide Replay, ValidChain;
    GoodViewStores(w, s, staged, pending, view);
    BranchAt(w, view.records.Keys, parent, k);
    var h := Tip(w, parent)[k].hash;
    assert GoodRows(w, s, h);
    RecordFields(w(h));
    GoodFlags(w, s);
  }

  // ---- The branch of a reorg --------------------------------------------------------------------------

  function DeltasOf(blocks: seq<Block>): seq<BlockDelta> {
    seq(|blocks|, i requires 0 <= i < |blocks| => DeltaOf(blocks[i]))
  }

  /** The consistency a reorg starts from: the tip is archived, off the main chain, and described by `tip`. */
  ghost predicate BranchReady(w: World, s: Store, pending: Deltas, tip: BlockDelta) {
    && Shaped(w, s) && DeltasAgree(w, pending, s)
    && tip == DeltaOf(w(tip.hash)) && tip.hash in s.records && tip.hash !in s.main
  }

  /** What is known when `k` is the next block to fetch; `-1` is the step below genesis. */
  ghost predicate BranchInv(w: World, s: Store, tip: Hash, branch: seq<BlockDelta>, k: int) {
    && ForkOf(s.main, Tip(w, tip)) < w(tip).height
    && -1 <= k <= w(tip).height && ForkOf(s.main, Tip(w, tip)) <= k && (k >= 0 ==> ForkOf(s.main, Tip(w, tip)) < k)
    && branch == DeltasOf(Tip(w, tip)[k + 1..])
    && (forall i {:trigger StoredAt(w, s, tip, i)} :: k < i <= w(tip).height ==> StoredAt(w, s, tip, i))
  }

  lemma BranchStart(w: World, s: Store, pending: Deltas, tip: BlockDelta)
    requires BranchReady(w, s, pending, tip)
    ensures BranchInv(w, s, tip.hash, [], w(tip.hash).height)
    ensures WalkAt(w, tip.hash, w(tip.hash).height) == tip.hash && tip.height == w(tip.hash).height
  {
    hide ValidChain, Replay;
    assert Linked(w, s.records.Keys, tip.hash);
    DeltaFields(w(tip.hash));
    assert Tip(w, tip.hash)[w(tip.hash).height + 1..] == [];
  }

  /** Block `k` of the tip's branch, as the walk meets it. */
  lemma BranchBlock(w: World, s: Store, pending: Deltas, tip: BlockDelta, k: nat)
    requires BranchReady(w, s, pending, tip) && k <= w(tip.hash).height
    ensures var h, b := WalkAt(w, tip.hash, k), Tip(w, tip.hash)[k];
            w(h) == b && b.height == k && b.prev == WalkAt(w, tip.hash, k - 1) && h in s.records
  {
    hide ValidChain, DeltaOf, PeakFlags, GoodRows;
    var h := WalkAt(w, tip.hash, k);
    BranchAt(w, s.records.Keys, tip.hash, k);
    assert Linked(w, s.records.Keys, h);
  }

  /** The parent of block `k` is confirmed exactly when `k` stands just above the fork. */
  lemma BranchParent(w: World, s: Store, pending: Deltas, tip: BlockDelta, k: nat)
    requires BranchReady(w, s, pending, tip) && ForkOf(s.main, Tip(w, tip.hash)) < k <= w(tip.hash).height
    ensures var p, f := WalkAt(w, tip.hash, k - 1), ForkOf(s.main, Tip(w, tip.hash));
            p in s.main <==> f == k - 1 && f >= 0
  {
    hide ValidChain, DeltaOf, GoodRows;
    GoodFlags(w, s);
    if k > 0 {
      FlaggedUpToFork(w, s, tip.hash, k - 1);
    } else {
      FlagsAreRecords(w, s);
      BelowGenesis(w, s, pending);
    }
  }

  /** Fetching block `k` and stepping to its parent. */
  lemma BranchMove(w: World, s: Store, pending: Deltas, tip: BlockDelta, branch: seq<BlockDelta>, k: nat)
    requires BranchReady(w, s, pending, tip) && k <= w(tip.hash).height
    requires BranchInv(w, s, tip.hash, branch, k)
    ensures var h, b, f := WalkAt(w, tip.hash, k), Tip(w, tip.hash)[k], ForkOf(s.main, Tip(w, tip.hash));
            && (h !in s.bodies ==> !Reachable(w, s, tip.hash))
            && (h in s.bodies && b.prev !in s.main ==> BranchInv(w, s, tip.hash, [DeltaOf(b)] + branch, k - 1))
            && (h in s.bodies && b.prev in s.main ==>
                  Reachable(w, s, tip.hash) && [DeltaOf(b)] + branch == DeltasOf(Tip(w, tip.hash)[f + 1..]))
  {
    hide ValidChain, DeltaOf, BranchReady;
    BranchBlock(w, s, pending, tip, k);
    BranchParent(w, s, pending, tip, k);
    var chain := Tip(w, tip.hash);
    assert [DeltaOf(chain[k])] + branch == DeltasOf(chain[k..]);
    assert StoredAt(w, s, tip.hash, k) <==> WalkAt(w, tip.hash, k) in s.bodies;
  }

  lemma BelowGenesis(w: World, s: Store, pending: Deltas)
    requires GoodArchive(w, s) && DeltasAgree(w, pending, s)
    ensures GENESIS_CHALLENGE !in s.records && GENESIS_CHALLENGE !in s.bodies && GENESIS_CHALLENGE !in pending
  {
    assert !Linked(w, s.records.Keys, GENESIS_CHALLENGE);
    assert GoodRows(w, s, GENESIS_CHALLENGE);
  }

  lemma FlagsAreRecords(w: World, s: Store)
    requires GoodArchive(w, s) && FlagsAreAncestry(w, s)
    ensures s.main <= s.records.Keys
  {
    hide ValidChain;
    forall h | h in s.main
      ensures h in s.records
    {
      FlaggedAncestry(w, s, h, 0);
    }
  }

  /**
   The deltas from just above the fork up to `tip`, in height order. On a consistent store it
   succeeds exactly when the branch meets the main chain and every body above the fork is stored,
   and then returns the whole branch above the fork; an unreadable ancestor is an error, never a
   shorter branch.
   */
  method CandidateBranch(s: Store, pending: Deltas, tip: BlockDelta, ghost w: World)
    returns (r: Result<seq<BlockDelta>, NodeError>)
    requires s.main <= s.records.Keys
    ensures BranchReady(w, s, pending, tip) ==>
              (r.Ok? <==> Reachable(w, s, tip.hash)) && (r.Ok? ==> WholeBranch(w, s, tip.hash, r.value))
    ensures tip.hash in pending && pending[tip.hash].prev !in pending && pending[tip.hash].prev !in s.records ==> r.Err?
  {
    hide Complete, Tip, PeakFlags, DeltaOf, DeltasOf, GoodArchive;
    ghost var good := BranchReady(w, s, pending, tip);
    var branch: seq<BlockDelta> := [];
    var cursor := tip.hash;
    var lastHeight: int := tip.height + 1;
    if good {
      BranchStart(w, s, pending, tip);
      GoodFlags(w, s);
    }
    assert good ==> GoodArchive(w, s) && FlagsAreAncestry(w, s);
    assert good ==> BranchAtCursor(w, s, tip, branch, cursor, lastHeight);
    hide BranchReady, BranchAtCursor, FlagsAreAncestry, WholeBranch, Reachable;
    ghost var cut := tip.hash in pending && pending[tip.hash].prev !in pending && pending[tip.hash].prev !in s.records;
    while true
      invariant 0 <= lastHeight
      invariant good ==> BranchAtCursor(w, s, tip, branch, cursor, lastHeight)
      invariant cut ==> cursor == tip.hash || cursor == pending[tip.hash].prev
      decreases lastHeight
    {
      var fetched := FetchDelta(s, pending, cursor, w);
      if fetched.Err? {
        if good {
          BranchBroken(w, s, pending, tip, branch, cursor, lastHeight);
        }
        return Err(fetched.error);
      }
      var d := fetched.value;
      var confirmed := IsConfirmed(s, d.prev, w);
      if good {
        BranchAdvance(w, s, pending, tip, branch, cursor, lastHeight, d);
      }
      branch := [d] + branch;
      if confirmed {
        return Ok(branch);
      }
      if d.height >= lastHeight {
        return Err(Invalid);
      }
      lastHeight := d.height;
      cursor := d.prev;
    }
  }

  ghost predicate WholeBranch(w: World, s: Store, tip: Hash, branch: seq<BlockDelta>) {
    branch == DeltasOf(Tip(w, tip)[ForkOf(s.main, Tip(w, tip)) + 1..])
  }

  ghost predicate BranchAtCursor(w: World, s: Store, tip: BlockDelta, branch: seq<BlockDelta>, cursor: Hash, lastHeight: int) {
    && 0 <= lastHeight <= w(tip.hash).height + 1
    && BranchInv(w, s, tip.hash, branch, lastHeight - 1)
    && cursor == WalkAt(w, tip.hash, lastHeight - 1)
  }

  lemma BranchAdvance(w: World, s: Store, pending: Deltas, tip: BlockDelta, branch: seq<BlockDelta>,
                      cursor: Hash, lastHeight: int, d: BlockDelta)
    requires BranchReady(w, s, pending, tip) && BranchAtCursor(w, s, tip, branch, cursor, lastHeight)
    requires cursor in s.bodies && d == DeltaOf(w(cursor))
    ensures d.height < lastHeight
    ensures d.prev in s.main ==> Reachable(w, s, tip.hash) && WholeBranch(w, s, tip.hash, [d] + branch)
    ensures d.prev !in s.main ==> BranchAtCursor(w, s, tip, [d] + branch, d.prev, d.height)
  {
    hide *;
    var k := CursorStands(w, s, pending, tip, branch, cursor, lastHeight);
    BranchBlock(w, s, pending, tip, k);
    DeltaFields(w(cursor));
    BranchMove(w, s, pending, tip, branch, k);
    if d.prev in s.main {
      WholeBranchIs(w, s, tip.hash, [d] + branch);
    } else {
      CursorMoves(w, s, tip, [d] + branch, d.prev, k);
    }
  }

  /** A cursor on a stored body stands on a block of the branch. */
  lemma CursorStands(w: World, s: Store, pending: Deltas, tip: BlockDelta, branch: seq<BlockDelta>, cursor: Hash, lastHeight: int)
    returns (k: nat)
    requires BranchReady(w, s, pending, tip) && BranchAtCursor(w, s, tip, branch, cursor, lastHeight) && cursor in s.bodies
    ensures k == lastHeight - 1 && k <= w(tip.hash).height && BranchInv(w, s, tip.hash, branch, k) && cursor == WalkAt(w, tip.hash, k)
  {
    hide Tip, PeakFlags, DeltaOf, DeltasOf, GoodArchive, DeltasAgree, BranchInv;
    BelowGenesis(w, s, pending);
    k := lastHeight - 1;
  }

  lemma CursorMoves(w: World, s: Store, tip: BlockDelta, branch: seq<BlockDelta>, cursor: Hash, k: nat)
    requires k <= w(tip.hash).height && BranchInv(w, s, tip.hash, branch, k - 1) && cursor == WalkAt(w, tip.hash, k - 1)
    ensures BranchAtCursor(w, s, tip, branch, cursor, k)
  {
    hide BranchInv, WalkAt;
  }

  lemma WholeBranchIs(w: World, s: Store, tip: Hash, branch: seq<BlockDelta>)
    requires branch == DeltasOf(Tip(w, tip)[ForkOf(s.main, Tip(w, tip)) + 1..])
    ensures WholeBranch(w, s, tip, branch)
  {
    hide DeltasOf, ForkOf, Tip;
  }

  /**
   A branch delta: the pending overlay first, then the store. On a consistent store it is the
   block's own delta, and there is one exactly when the body is stored: the overlay changes neither.
   */
  method FetchDelta(s: Store, pending: Deltas, cursor: Hash, ghost w: World) returns (r: Result<BlockDelta, NodeError>)
    ensures cursor in pending ==> r == Ok(pending[cursor])
    ensures cursor !in pending && cursor !in s.records ==> r.Err?
    ensures GoodArchive(w, s) && DeltasAgree(w, pending, s) ==>
              (r.Ok? <==> cursor in s.bodies) && (r.Ok? ==> r.value == DeltaOf(w(cursor)))
  {
    if cursor in pending {
      return Ok(pending[cursor]);
    }
    r := DeltaFromStore(s, cursor, w);
  }

  lemma BranchBroken(w: World, s: Store, pending: Deltas, tip: BlockDelta, branch: seq<BlockDelta>,
                     cursor: Hash, lastHeight: int)
    requires BranchReady(w, s, pending, tip) && BranchAtCursor(w, s, tip, branch, cursor, lastHeight)
    requires cursor !in s.bodies
    ensures !Reachable(w, s, tip.hash)
  {
    hide Complete, PeakFlags, DeltaOf, DeltasOf, GoodArchive;
    if lastHeight > 0 {
      BranchMove(w, s, pending, tip, branch, lastHeight - 1);
    }
  }
}
