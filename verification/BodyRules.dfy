/**
 The coin-store body rules of a transaction block: the reward claims it must incorporate, and the
 rules on its additions, removals and fees. Together they accept a block exactly when `CoinRules`
 holds on the block's own branch.
 */
module BodyRules {
  import opened Arithmetic
  import opened Coins
  import opened CoinTable
  import opened Chain
  import opened Supply
  import opened Archive
  import opened MainChain
  import opened LedgerLaw
  import opened ForkOverlay
  import opened BranchWalk

  /** The branch a block is validated on. */
  ghost function ParentChain(w: World, block: Block): seq<Block> {
    if block.height == 0 then [] else Tip(w, block.prev)
  }

  /** A chain as its hashes commit to it: each block at its height, above the one its parent hash names. */
  ghost predicate Chained(w: World, chain: seq<Block>) {
    && chain != [] && chain[0].IsTx()
    && (forall i {:trigger chain[i]} :: 0 <= i < |chain| ==>
          && chain[i].height == i && w(chain[i].hash) == chain[i]
          && (i > 0 ==> chain[i].prev == chain[i - 1].hash))
  }

  /** What header validation has bound: the block stands on the chain its parent hash commits to. */
  ghost predicate Bound(w: World, block: Block) {
    && (block.height > 0 ==> w(block.prev).height + 1 == block.height && Chained(w, Tip(w, block.prev)))
    && HeaderBinds(ParentChain(w, block), block)
  }

  /** The block is bound to a branch whose tip is archived. */
  ghost predicate Attached(w: World, view: Store, block: Block) {
    Bound(w, block) && (block.height > 0 ==> block.prev in view.records)
  }

  // ---- Rule 5 -------------------------------------------------------------------------------------

  type Cached = map<Hash, BlockRecord>

  /** Every cached record is the one its hash commits to. */
  ghost predicate GoodCache(w: World, cached: Cached) {
    forall h {:trigger h in cached} :: h in cached ==> cached[h] == RecordOf(w(h)) && w(h).hash == h
  }

  function Known(s: Store, cached: Cached): set<Hash> {
    cached.Keys + s.records.Keys
  }

  /**
   A record for the walk: the cache, then pending deltas, then the store. It is the block's own
   record whichever place holds it, and there is one exactly when the block is cached or stored.
   */
  method RecordForWalk(s: Store, cached: Cached, pending: Deltas, h: Hash, ghost w: World)
    returns (r: Option<BlockRecord>)
    requires GoodArchive(w, s) && DeltasAgree(w, pending, s) && GoodCache(w, cached)
    ensures r == if h in Known(s, cached) then Some(RecordOf(w(h))) else None
  {
    hide RecordOf, ValidChain, Complete;
    assert GoodRows(w, s, h);
    DeltaFields(w(h));
    if h in cached {
      return Some(cached[h]);
    } else if h in pending {
      return Some(pending[h].record);
    } else if h in s.records {
      return Some(s.records[h]);
    }
    return None;
  }

  lemma ClaimsBetweenDown(chain: seq<Block>, k: nat, top: nat)
    requires k < top < |chain|
    ensures ClaimsBetween(chain, k as int - 1, top) ==
            ClaimsBetween(chain, k, top) + {Id(PoolCoin(chain[k])), Id(FarmerCoin(chain[k], FeesDue(chain, k)))}
  {
    hide PoolReward, FarmerReward;
  }

  lemma ClaimsBetweenOne(chain: seq<Block>, k: nat)
    requires k < |chain|
    ensures ClaimsBetween(chain, k as int - 1, k) == {Id(PoolCoin(chain[k])), Id(FarmerCoin(chain[k], FeesDue(chain, k)))}
  {
    hide PoolReward, FarmerReward;
  }

  lemma RecordRewards(b: Block)
    ensures var r := RecordOf(b);
            && r.prev == b.prev && r.height == b.height && r.pool == b.pool && r.farmer == b.farmer
            && (r.timestamp.Some? <==> b.IsTx())
            && Fees(b) == (if r.fees.Some? then r.fees.value else 0)
  {
  }

  /** Where the reward walk stands: every block above it, up to the last transaction block, is counted. */
  ghost predicate RewardWalk(chain: seq<Block>, known: set<Hash>, expected: set<Name>, cursor: Hash, k: int) {
    && 0 <= k < LastTx(chain) && ClaimedTo(chain) <= k
    && cursor == chain[k].hash
    && expected == ClaimsBetween(chain, k, LastTx(chain))
    && (forall i {:trigger chain[i]} :: k < i <= LastTx(chain) ==> chain[i].hash in known)
  }

  /** Every record the reward walk reads is known. */
  ghost predicate Traced(chain: seq<Block>, known: set<Hash>) {
    forall i {:trigger chain[i]} :: 0 <= i && ClaimedTo(chain) <= i <= LastTx(chain) ==> chain[i].hash in known
  }

  /** The last farmer reward with its fees does not fit 64 bits. */
  ghost predicate Overflows(chain: seq<Block>)
    requires LastTx(chain) >= 0
  {
    FarmerReward(LastTx(chain)) + Fees(chain[LastTx(chain)]) > U64_MAX
  }

  lemma RewardStep(w: World, chain: seq<Block>, known: set<Hash>, expected: set<Name>, cursor: Hash, k: int)
    requires Chained(w, chain) && RewardWalk(chain, known, expected, cursor, k)
    ensures k >= 0 && w(cursor) == chain[k] && w(cursor).height == k
    ensures cursor !in known ==> !Traced(chain, known)
    ensures cursor in known && w(cursor).IsTx() ==> expected == ExpectedClaims(chain) && Traced(chain, known)
    ensures cursor in known && !w(cursor).IsTx() ==>
              RewardWalk(chain, known, expected + {Id(PoolCoin(w(cursor))), Id(FarmerCoin(w(cursor), 0))},
                         w(cursor).prev, k - 1)
  {
    hide PoolReward, FarmerReward;
    var last := LastTx(chain);
    assert chain[..last][k] == chain[k];
    if !w(cursor).IsTx() {
      ClaimsBetweenDown(chain, k, last);
    } else {
      ClaimsAreExpected(chain);
    }
  }

  lemma ClaimsAreExpected(chain: seq<Block>)
    requires LastTx(chain) >= 0
    ensures ClaimsBetween(chain, ClaimedTo(chain), LastTx(chain)) == ExpectedClaims(chain)
  {
  }

  lemma LastTxExists(w: World, chain: seq<Block>)
    requires Chained(w, chain)
    ensures LastTx(chain) >= 0
  {
    assert chain[0].IsTx();
  }

  lemma TracedFirst(w: World, chain: seq<Block>, known: set<Hash>)
    requires Chained(w, chain)
    ensures LastTx(chain) >= 0 && (Traced(chain, known) ==> chain[LastTx(chain)].hash in known)
  {
    LastTxExists(w, chain);
  }

  datatype Owed = Owed(names: set<Name>) | MissingRecord | RewardOverflow

  /** The reward coins owed on a branch, walked from the declared previous transaction block. */
  method OwedRewards(s: Store, cached: Cached, pending: Deltas, prevTx: Hash, ghost w: World, ghost chain: seq<Block>)
    returns (r: Owed)
    requires GoodArchive(w, s) && DeltasAgree(w, pending, s) && GoodCache(w, cached)
    requires Chained(w, chain) && (LastTx(chain) >= 0 ==> prevTx == chain[LastTx(chain)].hash)
    ensures LastTx(chain) >= 0
    ensures r.Owed? <==> Traced(chain, Known(s, cached)) && !Overflows(chain)
    ensures r.Owed? ==> r.names == ExpectedClaims(chain)
    ensures r.RewardOverflow? <==> chain[LastTx(chain)].hash in Known(s, cached) && Overflows(chain)
  {
    hide GoodArchive, DeltasAgree, GoodCache, RewardWalk, ExpectedClaims, RecordOf, PoolReward, FarmerReward, Chained, Traced;
    ghost var known := Known(s, cached);
    RewardStart(w, chain, known);
    var found := RecordForWalk(s, cached, pending, prevTx, w);
    if found.None? {
      return MissingRecord;
    }
    var prevRec := found.value;
    var fees := if prevRec.fees.Some? then prevRec.fees.value else 0;
    if FarmerReward(prevRec.height) + fees > U64_MAX {
      return RewardOverflow;
    }
    var expected := {Id(Coin(PoolParent(prevRec.height), prevRec.pool, PoolReward(prevRec.height))),
                     Id(Coin(FarmerParent(prevRec.height), prevRec.farmer, FarmerReward(prevRec.height) + fees))};
    if prevRec.height > 0 {
      var cursor := prevRec.prev;
      ghost var k: int := prevRec.height - 1;
      while true
        invariant RewardWalk(chain, known, expected, cursor, k)
        invariant k >= 0
        decreases k
      {
        RewardStep(w, chain, known, expected, cursor, k);
        RecordRewards(w(cursor));
        var next := RecordForWalk(s, cached, pending, cursor, w);
        if next.None? {
          return MissingRecord;
        }
        var curr := next.value;
        if curr.timestamp.Some? {
          break;
        }
        expected := expected + {Id(Coin(PoolParent(curr.height), curr.pool, PoolReward(curr.height))),
                                Id(Coin(FarmerParent(curr.height), curr.farmer, FarmerReward(curr.height)))};
        cursor := curr.prev;
        k := k - 1;
        RewardWalkBound(chain, known, expected, cursor, k);
      }
    }
    return Owed(expected);
  }

  /** The first step of the walk: the last transaction block's own two rewards. */
  lemma RewardStart(w: World, chain: seq<Block>, known: set<Hash>)
    requires Chained(w, chain)
    ensures LastTx(chain) >= 0
    ensures var last := LastTx(chain);
            var b, r := chain[last], RecordOf(chain[last]);
            var first := {Id(Coin(PoolParent(last), r.pool, PoolReward(last))),
                          Id(Coin(FarmerParent(last), r.farmer, FarmerReward(last) + Fees(b)))};
            && w(b.hash) == b && r.height == last
            && Fees(b) == (if r.fees.Some? then r.fees.value else 0)
            && (b.hash !in known ==> !Traced(chain, known))
            && (last == 0 && b.hash in known ==> first == ExpectedClaims(chain) && Traced(chain, known))
            && (last > 0 && b.hash in known ==> RewardWalk(chain, known, first, r.prev, last - 1))
  {
    hide PoolReward, FarmerReward, Chained, RewardWalk, Traced, ExpectedClaims, RecordOf, LastTx, Fees;
    LastTxExists(w, chain);
    var last := LastTx(chain);
    LastTxBlock(w, chain);
    RecordRewards(chain[last]);
    if chain[last].hash in known {
      FirstWalk(w, chain, known);
    }
  }

  lemma LastTxBlock(w: World, chain: seq<Block>)
    requires Chained(w, chain)
    ensures 0 <= LastTx(chain) < |chain|
    ensures w(chain[LastTx(chain)].hash) == chain[LastTx(chain)] && chain[LastTx(chain)].height == LastTx(chain)
    ensures LastTx(chain) > 0 ==> chain[LastTx(chain)].prev == chain[LastTx(chain) - 1].hash
    ensures forall known :: chain[LastTx(chain)].hash !in known ==> !Traced(chain, known)
  {
    LastTxExists(w, chain);
  }

  lemma FirstWalk(w: World, chain: seq<Block>, known: set<Hash>)
    requires Chained(w, chain) && LastTx(chain) >= 0 && chain[LastTx(chain)].hash in known
    ensures var last := LastTx(chain);
            var first := {Id(PoolCoin(chain[last])), Id(FarmerCoin(chain[last], Fees(chain[last])))};
            && (last == 0 ==> first == ExpectedClaims(chain) && Traced(chain, known))
            && (last > 0 ==> RewardWalk(chain, known, first, chain[last].prev, last - 1))
  {
    hide PoolReward, FarmerReward, Chained, ExpectedClaims;
    LastTxBlock(w, chain);
    ClaimsBetweenOne(chain, LastTx(chain));
    if LastTx(chain) == 0 {
      ClaimsAreExpected(chain);
    }
  }

  lemma RewardWalkBound(chain: seq<Block>, known: set<Hash>, expected: set<Name>, cursor: Hash, k: int)
    requires RewardWalk(chain, known, expected, cursor, k)
    ensures k >= 0
  {
  }

  /**
   When rule 5 lets a block through. Strictly, the walk must find every record it reads; otherwise a
   missing record skips the rule.
   */
  ghost predicate RewardsPass(w: World, known: set<Hash>, block: Block, strict: bool)
    requires block.IsTx() && Bound(w, block)
  {
    var chain := ParentChain(w, block);
    if block.height == 0 then ClaimsAreExact(chain, block.body.value)
    else
      LastTxExists(w, chain);
      if Traced(chain, known) then !Overflows(chain) && ClaimsAreExact(chain, block.body.value)
      else !strict && !(chain[LastTx(chain)].hash in known && Overflows(chain))
  }

  /** Rule 5: the incorporated claims are exactly the rewards owed, each once. */
  method ValidateRewardClaims(s: Store, cached: Cached, pending: Deltas, block: Block, strict: bool, ghost w: World)
    returns (r: Result<(), NodeError>)
    requires GoodArchive(w, s) && DeltasAgree(w, pending, s) && GoodCache(w, cached)
    requires block.IsTx() && Bound(w, block)
    ensures r.Ok? <==> RewardsPass(w, Known(s, cached), block, strict)
  {
    hide GoodArchive, DeltasAgree, GoodCache, ExpectedClaims, Chained, Tip, Replay, Traced, Overflows;
    var tx := block.body.value;
    var expected: set<Name> := {};
    if block.height > 0 {
      var owed := OwedRewards(s, cached, pending, tx.prevTxHash, w, Tip(w, block.prev));
      TracedFirst(w, Tip(w, block.prev), Known(s, cached));
      match owed {
        case RewardOverflow => return Err(Consensus(InvalidRewardCoins));
        case MissingRecord =>
          if strict {
            return Err(Invalid);
          }
          return Ok(());
        case Owed(names) => expected := names;
      }
    } else {
      NoClaimsAtGenesis();
    }
    var claims := ClaimNames(tx.claims);
    if claims != expected || |tx.claims| != |expected| {
      return Err(Consensus(InvalidRewardCoins));
    }
    return Ok(());
  }

  /** On a valid branch whose records are known, rule 5 passes exactly when the claims are those owed. */
  lemma RewardsPassExactly(w: World, known: set<Hash>, block: Block, strict: bool)
    requires block.IsTx() && Bound(w, block) && ValidChain(ParentChain(w, block))
    requires block.height > 0 ==> Traced(ParentChain(w, block), known)
    ensures RewardsPass(w, known, block, strict) <==> ClaimsAreExact(ParentChain(w, block), block.body.value)
  {
    hide ExpectedClaims, Chained, Tip, Replay, Traced, ValidChain;
    if block.height > 0 {
      LastTxExists(w, ParentChain(w, block));
      FarmerClaimFits(ParentChain(w, block), LastTx(ParentChain(w, block)));
    }
  }

  /** Without full history rule 5 passes a block whose claims are those owed, known records or not. */
  lemma LenientPasses(w: World, known: set<Hash>, block: Block)
    requires block.IsTx() && Bound(w, block) && ValidChain(ParentChain(w, block))
    requires ClaimsAreExact(ParentChain(w, block), block.body.value)
    ensures RewardsPass(w, known, block, false)
  {
    hide ExpectedClaims, Chained, Tip, Replay, Traced, ValidChain, ClaimsAreExact;
    if block.height > 0 {
      LastTxExists(w, ParentChain(w, block));
      FarmerClaimFits(ParentChain(w, block), LastTx(ParentChain(w, block)));
    }
  }

  lemma NoClaimsAtGenesis()
    ensures ExpectedClaims([]) == {}
  {
  }

  // ---- Rules 10, 13, 14 and the sums ----------------------------------------------------------------

  /** Rule 10. */
  method AmountsInBounds(adds: seq<CoinRecord>) returns (ok: bool)
    ensures ok <==> forall a :: a in adds ==> a.coin.amount <= MAX_COIN_AMOUNT
  {
    for i := 0 to |adds|
      invariant forall k :: 0 <= k < i ==> adds[k].coin.amount <= MAX_COIN_AMOUNT
    {
      if adds[i].coin.amount > MAX_COIN_AMOUNT {
        return false;
      }
    }
    return true;
  }

  /** Rule 13: the additions by name, unless two of them share one. */
  method IndexAdditions(adds: seq<CoinRecord>) returns (r: Option<map<Name, CoinRecord>>)
    ensures r.Some? <==> DistinctNames(adds)
    ensures r.Some? ==> r.value.Keys == NamesOf(adds)
    ensures r.Some? ==> forall n :: n in r.value ==> r.value[n] in adds && Id(r.value[n].coin) == n
  {
    var byName: map<Name, CoinRecord> := map[];
    for i := 0 to |adds|
      invariant DistinctNames(adds[..i])
      invariant byName.Keys == NamesOf(adds[..i])
      invariant forall n :: n in byName ==> byName[n] in adds && Id(byName[n].coin) == n
    {
      assert adds[..i + 1] == adds[..i] + [adds[i]];
      var name := Id(adds[i].coin);
      if name in byName {
        assert exists k :: 0 <= k < i && adds[k].coin == adds[i].coin;
        return None;
      }
      assert forall k :: 0 <= k < i ==> Id(adds[k].coin) in NamesOf(adds[..i]) by {
        forall k | 0 <= k < i
          ensures Id(adds[k].coin) in NamesOf(adds[..i])
        {
          assert adds[..i][k] in adds[..i];
        }
      }
      byName := byName[name := adds[i]];
    }
    assert adds[..|adds|] == adds;
    return Some(byName);
  }

  /** Rule 14. */
  method RemovalsDistinct(rems: seq<Name>) returns (ok: bool)
    ensures ok <==> Distinct(rems)
  {
    var seen: set<Name> := {};
    for i := 0 to |rems|
      invariant seen == ToSet(rems[..i])
      invariant Distinct(rems[..i])
    {
      assert rems[..i + 1] == rems[..i] + [rems[i]];
      if rems[i] in seen {
        assert exists k :: 0 <= k < i && rems[k] == rems[i];
        return false;
      }
      assert forall k :: 0 <= k < i ==> rems[..i][k] in seen;
      seen := seen + {rems[i]};
    }
    assert rems[..|rems|] == rems;
    return true;
  }

  /** The total of the coins the removals resolve to. */
  method SumRemoved(rems: seq<Name>, records: map<Name, CoinRecord>) returns (total: nat)
    requires forall n :: n in rems ==> n in records && Id(records[n].coin) == n
    ensures total == SumNames(rems)
  {
    total := 0;
    for i := 0 to |rems|
      invariant total == SumNames(rems[..i])
    {
      assert rems[..i + 1][..i] == rems[..i];
      total := total + records[rems[i]].coin.amount;
    }
    assert rems[..|rems|] == rems;
  }

  /** The total of the additions that are not reward claims. */
  method SumAdded(adds: seq<CoinRecord>) returns (total: nat)
    ensures total == SumMinted(adds)
  {
    total := 0;
    for i := 0 to |adds|
      invariant total == SumMinted(adds[..i])
    {
      assert adds[..i + 1][..i] == adds[..i];
      if !adds[i].coinbase {
        total := total + adds[i].coin.amount;
      }
    }
    assert adds[..|adds|] == adds;
  }

  function SumMinted(adds: seq<CoinRecord>): nat {
    if adds == [] then 0
    else SumMinted(adds[..|adds| - 1]) + if adds[|adds| - 1].coinbase then 0 else adds[|adds| - 1].coin.amount
  }

  lemma {:induction false} SumMintedSplit(claims: seq<Coin>, kids: seq<Coin>, height: nat, timestamp: nat)
    ensures SumMinted(NewCoinRecords(claims, height, timestamp, true) + NewCoinRecords(kids, height, timestamp, false)) ==
            SumCoins(kids)
    decreases |claims| + |kids|
  {
    var all := NewCoinRecords(claims, height, timestamp, true) + NewCoinRecords(kids, height, timestamp, false);
    if kids != [] {
      var k := |kids| - 1;
      SumMintedSplit(claims, kids[..k], height, timestamp);
      assert all[..|all| - 1] == NewCoinRecords(claims, height, timestamp, true) + NewCoinRecords(kids[..k], height, timestamp, false);
    } else if claims != [] {
      var k := |claims| - 1;
      SumMintedSplit(claims[..k], kids, height, timestamp);
      assert all[..|all| - 1] == NewCoinRecords(claims[..k], height, timestamp, true) + NewCoinRecords(kids, height, timestamp, false);
    }
  }

  // ---- All the rules ------------------------------------------------------------------------------------

  /** Every body of the parent's branch is stored. */
  ghost predicate ParentStored(w: World, view: Store, block: Block) {
    block.height > 0 ==> Complete(w, view.bodies.Keys, block.prev, w(block.prev).height)
  }

  /** The state in which a removal's verdict is decided. */
  ghost predicate OverlayReady(w: World, s: Store, chain: seq<Block>, v: ForkView) {
    && ValidChain(chain) && ValidChain(MainOf(w, s)) && s.coins == Replay(MainOf(w, s))
    && ViewOf(chain, v) && SharesPrefix(w, s, chain, v.forkHeight)
  }

  lemma OverlayIsReady(w: World, s: Store, staged: Deltas, pending: Deltas, view: Store, block: Block, v: ForkView)
    requires GoodView(w, s, staged, pending, view) && Attached(w, view, block) && ParentStored(w, view, block)
    requires block.height == 0 ==> v == ForkView(-1, map[], {})
    requires block.height > 0 ==> ViewOf(Tip(w, block.prev), v) && SharesPrefix(w, s, Tip(w, block.prev), v.forkHeight)
    ensures OverlayReady(w, s, ParentChain(w, block), v)
  {
    hide *;
    MainIsReady(w, s, staged, pending, view);
    if block.height == 0 {
      BeforeGenesis(w, s, block, v);
    } else {
      AboveParent(w, view, block);
    }
    ReadyFrom(w, s, ParentChain(w, block), v);
  }

  lemma MainIsReady(w: World, s: Store, staged: Deltas, pending: Deltas, view: Store)
    requires GoodView(w, s, staged, pending, view)
    ensures ValidChain(MainOf(w, s)) && s.coins == Replay(MainOf(w, s)) && GoodArchive(w, view) && Vetted(w, view)
  {
    hide Replay, GoodArchive, PeakFlags, Complete, ValidChain;
    GoodViewStores(w, s, staged, pending, view);
    MainIsValid(w, s);
  }

  lemma BeforeGenesis(w: World, s: Store, block: Block, v: ForkView)
    requires block.height == 0 && v == ForkView(-1, map[], {})
    ensures ValidChain(ParentChain(w, block)) && ViewOf(ParentChain(w, block), v)
    ensures SharesPrefix(w, s, ParentChain(w, block), v.forkHeight)
  {
    EmptyReplay();
    EmptyView();
    hide ViewOf, ValidChain, Tip, MainOf;
  }

  lemma AboveParent(w: World, view: Store, block: Block)
    requires GoodArchive(w, view) && Vetted(w, view) && block.height > 0 && ParentStored(w, view, block)
    ensures ParentChain(w, block) == Tip(w, block.prev) && ValidChain(Tip(w, block.prev))
  {
    hide Replay, GoodArchive, ValidChain, Vetted, Tip;
    CompleteIsValid(w, view, block.prev);
  }

  lemma ReadyFrom(w: World, s: Store, chain: seq<Block>, v: ForkView)
    requires ValidChain(chain) && ValidChain(MainOf(w, s)) && s.coins == Replay(MainOf(w, s))
    requires ViewOf(chain, v) && SharesPrefix(w, s, chain, v.forkHeight)
    ensures OverlayReady(w, s, chain, v)
  {
  }

  /** A removal resolves exactly when the branch lets it be spent, to the coin's own birth data. */
  lemma VerdictIsSpendable(w: World, s: Store, block: Block, chain: seq<Block>, own: map<Name, CoinRecord>,
                           timestamp: nat, v: ForkView, n: Name)
    requires OverlayReady(w, s, chain, v) && own.Keys == NamesOf(Additions(block))
    requires forall m :: m in own ==> Id(own[m].coin) == m
    ensures var l := Lookup(own, block.height, timestamp, v, s.coins, n);
            && (l.Resolved? <==> Spendable(chain, block, n))
            && (l.Resolved? ==> Id(l.record.coin) == n)
            && (l.Resolved? && n !in own ==> Matches(Replay(chain), n, l.record))
  {
    hide Replay, ViewOf, ValidChain, Additions, NamesOf;
    OverlayRefinesReplay(chain, MainOf(w, s), v, n);
    ReplayKeepsInv(chain);
  }

  /** Rules 10, 13 and 14, in rule order: the additions by name when they hold. */
  method ValidateDelta(block: Block) returns (r: Result<map<Name, CoinRecord>, NodeError>)
    ensures r.Ok? <==> DeltaRules(block)
    ensures r.Ok? ==> r.value.Keys == NamesOf(Additions(block)) && forall n :: n in r.value ==> Id(r.value[n].coin) == n
  {
    hide Additions, Removals;
    var additions, removals := Additions(block), Removals(block);
    var bounded := AmountsInBounds(additions);
    if !bounded {
      return Err(Consensus(CoinAmountExceedsMaximum));
    }
    var indexed := IndexAdditions(additions);
    if indexed.None? {
      return Err(Consensus(DuplicateOutput));
    }
    var distinct := RemovalsDistinct(removals);
    if !distinct {
      return Err(Consensus(DoubleSpendInBlock));
    }
    return Ok(indexed.value);
  }

  /**
   The records returned name the removed coins, and date them as the branch's replay does, the block's
   own coins as the replay with the block has them.
   */
  ghost predicate BirthsMatch(chain: seq<Block>, block: Block, records: map<Name, CoinRecord>) {
    && records.Keys == ToSet(Removals(block))
    && (forall n :: n in records ==> Matches(Replay(chain + [block]), n, records[n]))
    && (forall n :: n in records && n !in NamesOf(Additions(block)) ==> Matches(Replay(chain), n, records[n]))
  }

  /** Rule 15 for one removal as the overlay decides it. */
  predicate OverlaySpendable(v: ForkView, coins: Table, b: Block, n: Name) {
    n in NamesOf(Additions(b)) || Resolve(v, coins, n).Resolved?
  }

  /** Rules 15 to 19 as the overlay decides them. */
  predicate OverlayRules(v: ForkView, coins: Table, b: Block)
    requires b.IsTx()
  {
    var tx := b.body.value;
    var removed := SumNames(Removals(b));
    var added := SumCoins(Children(tx.spends));
    && (forall n :: n in Removals(b) ==> OverlaySpendable(v, coins, b, n))
    && removed >= added
    && removed - added >= tx.reserveFee
    && removed - added + FarmerReward(b.height) <= MAX_COIN_AMOUNT
    && tx.fees == removed - added
  }

  /** Every coin in reach of the overlay is filed under its own name. */
  ghost predicate NamedWell(own: map<Name, CoinRecord>, v: ForkView, coins: Table) {
    && (forall n :: n in own ==> Id(own[n].coin) == n)
    && (forall n :: n in v.additions ==> Id(v.additions[n].coin) == n)
    && (forall n :: n in coins ==> Id(coins[n].coin) == n)
  }

  /** With a ready overlay, the overlay's verdicts are the replay's. */
  lemma OverlayRulesAreReplays(w: World, s: Store, block: Block, chain: seq<Block>, own: map<Name, CoinRecord>, v: ForkView)
    requires block.IsTx() && OverlayReady(w, s, chain, v) && own.Keys == NamesOf(Additions(block))
    requires forall m :: m in own ==> Id(own[m].coin) == m
    ensures OverlayRules(v, s.coins, block) <==> SpendRules(chain, block)
    ensures forall n :: n in Removals(block) && n !in own && Resolve(v, s.coins, n).Resolved? ==>
              Matches(Replay(chain), n, Resolve(v, s.coins, n).record)
  {
    hide OverlayReady, Resolve, Spendable, Additions, Removals, NamesOf, FarmerReward, Matches, Replay;
    forall n
      ensures OverlaySpendable(v, s.coins, block, n) <==> Spendable(chain, block, n)
      ensures n !in own && Resolve(v, s.coins, n).Resolved? ==> Matches(Replay(chain), n, Resolve(v, s.coins, n).record)
    {
      VerdictIsSpendable(w, s, block, chain, own, 0, v, n);
    }
  }

  /** Rule 15 through the overlay. */
  method ResolveRemovals(s: Store, block: Block, own: map<Name, CoinRecord>, v: ForkView)
    returns (r: Result<map<Name, CoinRecord>, NodeError>)
    requires block.IsTx() && NamedWell(own, v, s.coins) && own.Keys == NamesOf(Additions(block))
    ensures r.Ok? <==> forall n :: n in Removals(block) ==> OverlaySpendable(v, s.coins, block, n)
    ensures r.Ok? ==> r.value.Keys == ToSet(Removals(block))
    ensures r.Ok? ==> forall n :: n in r.value ==> Id(r.value[n].coin) == n
    ensures r.Ok? ==> forall n :: n in r.value && n !in own ==> Resolved(r.value[n]) == Resolve(v, s.coins, n)
    ensures r.Ok? ==> forall n :: n in r.value && n in own ==> r.value[n] == Ephemeral(own[n], block.height, block.body.value.timestamp)
  {
    hide Additions, Removals, NamesOf;
    var timestamp := block.body.value.timestamp;
    var found := LookupRemovals(block.height, timestamp, own, Removals(block), v, s.coins);
    match found {
      case Err(e) =>
        return Err(Consensus(Unspendable(e)));
      case Ok(records) =>
        forall n | n in records
          ensures Id(records[n].coin) == n
        {
          LookupIsNamed(own, block.height, timestamp, v, s.coins, n);
        }
        return Ok(records);
    }
  }

  lemma LookupIsNamed(own: map<Name, CoinRecord>, height: nat, timestamp: nat, v: ForkView, coins: Table, n: Name)
    requires NamedWell(own, v, coins) && Lookup(own, height, timestamp, v, coins, n).Resolved?
    ensures Id(Lookup(own, height, timestamp, v, coins, n).record.coin) == n
  {
  }

  /** Rules 15 to 19, in rule order. */
  method ValidateSpends(s: Store, block: Block, own: map<Name, CoinRecord>, v: ForkView)
    returns (r: Result<map<Name, CoinRecord>, NodeError>)
    requires block.IsTx() && NamedWell(own, v, s.coins) && own.Keys == NamesOf(Additions(block))
    ensures r.Ok? <==> OverlayRules(v, s.coins, block)
    ensures r.Ok? ==> r.value.Keys == ToSet(Removals(block))
    ensures r.Ok? ==> forall n :: n in r.value && n !in own ==> Resolved(r.value[n]) == Resolve(v, s.coins, n)
    ensures r.Ok? ==> forall n :: n in r.value && n in own ==> r.value[n] == Ephemeral(own[n], block.height, block.body.value.timestamp)
  {
    hide Additions, Removals, NamesOf, OverlaySpendable, NamedWell, FarmerReward, Resolve;
    var tx := block.body.value;
    var found := ResolveRemovals(s, block, own, v);
    if found.Err? {
      return Err(found.error);
    }
    var removed := SumRemoved(Removals(block), found.value);
    var added := SumAdded(Additions(block));
    MintedIsChildren(block);
    if removed < added {
      return Err(Consensus(MintingCoin));
    }
    var fees := removed - added;
    if fees < tx.reserveFee {
      return Err(Consensus(ReserveFeeConditionFailed));
    }
    if fees + FarmerReward(block.height) > MAX_COIN_AMOUNT {
      return Err(Consensus(CoinAmountExceedsMaximum));
    }
    if tx.fees != fees {
      return Err(Consensus(InvalidBlockFeeAmount));
    }
    return Ok(found.value);
  }

  /** Nothing holds the parent but, perhaps, the cache. */
  predicate Stray(s: Store, staged: Deltas, pending: Deltas, block: Block) {
    block.height > 0 && block.prev !in staged && block.prev !in pending && block.prev !in s.records
  }

  /**
   The coin rules in rule order; `enforce` is full history.

   With full history, a block of a known branch whose reward records are known passes exactly when
   its parent's branch is fully stored and it meets `CoinRules` on that branch; the records returned
   then give each spent coin's birth height and time as the branch's own replay has them. A block
   whose parent only the cache holds is instead checked against the main chain's rows.
   */
  method ValidateCoinRules(s: Store, cached: Cached, staged: Deltas, pending: Deltas, block: Block, enforce: bool,
                           ghost w: World, ghost view: Store)
    returns (r: Result<map<Name, CoinRecord>, NodeError>)
    requires GoodView(w, s, staged, pending, view) && GoodCache(w, cached) && block.IsTx() && Bound(w, block)
    ensures !RewardsPass(w, Known(s, cached), block, enforce) || !DeltaRules(block) ==> r.Err?
    ensures !enforce ==> (r.Ok? <==> RewardsPass(w, Known(s, cached), block, false) && DeltaRules(block))
    ensures enforce && Attached(w, view, block) && (block.height > 0 ==> Traced(ParentChain(w, block), Known(s, cached))) ==>
              && (r.Ok? <==> ParentStored(w, view, block) && CoinRules(ParentChain(w, block), block))
              && (r.Ok? ==> BirthsMatch(ParentChain(w, block), block, r.value))
    ensures enforce && Stray(s, staged, pending, block) ==>
              (r.Ok? <==> && RewardsPass(w, Known(s, cached), block, true) && DeltaRules(block)
                          && OverlayRules(ForkView(block.height - 1, map[], {}), s.coins, block))
  {
    hide GoodView, ParentStored, ParentChain, Attached, ValidChain, DeltaRules, SpendRules, ClaimsAreExact, OverlayReady,
         BirthsMatch, Additions, NamesOf, RewardsPass, Bound, Traced, OverlayRules, GoodCache, GoodArchive, DeltasAgree, Removals;
    ViewFacts(w, s, staged, pending, view, block);
    ghost var regular := Attached(w, view, block) && (block.height > 0 ==> Traced(ParentChain(w, block), Known(s, cached)));
    if regular && ParentStored(w, view, block) {
      RewardsPassExactly(w, Known(s, cached), block, enforce);
    }
    var claims := ValidateRewardClaims(s, cached, pending, block, enforce, w);
    if claims.Err? {
      return Err(claims.error);
    }
    var indexed := ValidateDelta(block);
    if indexed.Err? {
      return Err(indexed.error);
    }
    if !enforce {
      return Ok(map[]);
    }
    var walked := WalkForBlock(s, staged, pending, block, w, view);
    if walked.Err? {
      return Err(walked.error);
    }
    r := ValidateSpends(s, block, indexed.value, walked.value);
    if regular {
      OverlayRulesAreReplays(w, s, block, ParentChain(w, block), indexed.value, walked.value);
      if r.Ok? {
        ResolvedMatch(ParentChain(w, block), block, indexed.value, walked.value, s.coins, r.value);
      }
    }
  }

  lemma ResolvedMatch(chain: seq<Block>, block: Block, own: map<Name, CoinRecord>, v: ForkView, coins: Table,
                      records: map<Name, CoinRecord>)
    requires block.IsTx() && records.Keys == ToSet(Removals(block)) && own.Keys == NamesOf(Additions(block))
    requires forall n :: n in own ==> Id(own[n].coin) == n
    requires forall n :: n in records && n in own ==> records[n] == Ephemeral(own[n], block.height, block.body.value.timestamp)
    requires forall n :: n in records && n !in own ==> Resolved(records[n]) == Resolve(v, coins, n)
    requires forall n :: n in Removals(block) && n !in own && Resolve(v, coins, n).Resolved? ==>
               Matches(Replay(chain), n, Resolve(v, coins, n).record)
    ensures BirthsMatch(chain, block, records)
  {
    hide Resolve, Matches, Replay, Additions, Removals, NamesOf, Ephemeral;
    forall n | n in records
      ensures Matches(Replay(chain + [block]), n, records[n])
    {
      if n in own {
        OwnMatches(chain, block, n, own[n]);
      } else {
        BirthStays(chain, block, n, records[n]);
      }
    }
  }

  /** A coin the block creates and spends is dated as the replay with the block has it. */
  lemma OwnMatches(chain: seq<Block>, block: Block, n: Name, a: CoinRecord)
    requires block.IsTx() && n in NamesOf(Additions(block)) && Id(a.coin) == n
    ensures Matches(Replay(chain + [block]), n, Ephemeral(a, block.height, block.body.value.timestamp))
  {
    hide Apply, Replay, Additions, Removals;
    ReplayStep(chain, block);
    ApplyAt(Replay(chain), DeltaOf(block));
  }

  /** A block does not change the birth of a coin it does not create. */
  lemma BirthStays(chain: seq<Block>, block: Block, n: Name, r: CoinRecord)
    requires n !in NamesOf(Additions(block)) && Matches(Replay(chain), n, r)
    ensures Matches(Replay(chain + [block]), n, r)
  {
    hide Apply, Replay, Additions, Removals;
    ReplayStep(chain, block);
    ApplyAt(Replay(chain), DeltaOf(block));
  }

  lemma ViewFacts(w: World, s: Store, staged: Deltas, pending: Deltas, view: Store, block: Block)
    requires GoodView(w, s, staged, pending, view)
    ensures GoodArchive(w, s) && DeltasAgree(w, pending, s) && s.main <= s.records.Keys
    ensures forall n :: n in s.coins ==> Id(s.coins[n].coin) == n
    ensures ParentStored(w, view, block) ==> ValidChain(ParentChain(w, block))
  {
    hide GoodArchive, PeakFlags, ValidChain, Tip, Complete, Replay;
    GoodViewStores(w, s, staged, pending, view);
    GoodFlags(w, s);
    FlagsAreRecords(w, s);
    MainIsValid(w, s);
    if ParentStored(w, view, block) {
      ParentIsValid(w, view, block);
    }
  }

  lemma MintedIsChildren(block: Block)
    requires block.IsTx()
    ensures SumMinted(Additions(block)) == SumCoins(Children(block.body.value.spends))
  {
    var tx := block.body.value;
    SumMintedSplit(tx.claims, Children(tx.spends), block.height, tx.timestamp);
  }

  lemma ParentIsValid(w: World, view: Store, block: Block)
    requires GoodArchive(w, view) && Vetted(w, view) && ParentStored(w, view, block)
    ensures ValidChain(ParentChain(w, block))
  {
    if block.height > 0 {
      CompleteIsValid(w, view, block.prev);
    }
  }

  /** The fork view of a block: ready for the spend checks on an archived branch, empty under a stray parent. */
  method WalkForBlock(s: Store, staged: Deltas, pending: Deltas, block: Block, ghost w: World, ghost view: Store)
    returns (r: Result<ForkView, NodeError>)
    requires GoodView(w, s, staged, pending, view)
    ensures Attached(w, view, block) ==> (r.Ok? <==> ParentStored(w, view, block))
    ensures Attached(w, view, block) && r.Ok? ==> OverlayReady(w, s, ParentChain(w, block), r.value)
    ensures Stray(s, staged, pending, block) ==> r == Ok(ForkView(block.height - 1, map[], {}))
    ensures r.Ok? ==> forall n :: n in r.value.additions ==> Id(r.value.additions[n].coin) == n
  {
    hide GoodView, Complete, Tip, HeaderBinds, ViewOf, OverlayReady, ValidChain, Chained, GoodArchive, DeltasAgree;
    ViewFacts(w, s, staged, pending, view, block);
    r := WalkFork(s, staged, pending, block, w, view);
    if r.Ok? && Attached(w, view, block) {
      OverlayIsReady(w, s, staged, pending, view, block, r.value);
    }
  }
}
