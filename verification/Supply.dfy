/**
 Conservation of the coin supply: what is unspent, plus the fees the last transaction block has
 collected and nobody has claimed yet, is exactly the base rewards paid out so far.
 */
module Supply {
  import opened Coins
  import opened CoinTable
  import opened Chain
  import opened Ledger

  /** Total amount over a set of coin ids. */
  ghost function SumSet(s: set<Name>): nat {
    if s == {} then 0 else var n :| n in s; AmountOf(n) + SumSet(s - {n})
  }

  ghost function UnspentSet(t: Table): set<Name> {
    set n | n in t && t[n].spentIndex == 0
  }

  /** Base pool and farmer rewards of the blocks at heights `0..=top`. */
  function BaseRewards(top: int): nat
    requires -1 <= top
    decreases top
  {
    if top < 0 then 0 else BaseRewards(top - 1) + PoolReward(top) + FarmerReward(top)
  }

  /** The fees collected by the last transaction block, not yet claimed by anyone. */
  function LastFees(chain: seq<Block>): nat {
    if LastTx(chain) < 0 then 0 else Fees(chain[LastTx(chain)])
  }

  // ---- Sums -----------------------------------------------------------------------------------

  lemma {:induction false} SumSetTake(s: set<Name>, n: Name)
    requires n in s
    ensures SumSet(s) == AmountOf(n) + SumSet(s - {n})
    decreases |s|
  {
    var m :| m in s && SumSet(s) == AmountOf(m) + SumSet(s - {m});
    if m != n {
      SumSetTake(s - {m}, n);
      SumSetTake(s - {n}, m);
      assert s - {m} - {n} == s - {n} - {m};
    }
  }

  lemma {:induction false} SumSetDisjoint(a: set<Name>, b: set<Name>)
    requires a !! b
    ensures SumSet(a + b) == SumSet(a) + SumSet(b)
    decreases |b|
  {
    if b == {} {
      assert a + b == a;
    } else {
      var n :| n in b;
      SumSetTake(b, n);
      SumSetTake(a + b, n);
      SumSetDisjoint(a, b - {n});
      assert a + b - {n} == a + (b - {n});
    }
  }

  lemma {:induction false} SumDistinctNames(names: seq<Name>)
    requires Distinct(names)
    ensures SumSet(ToSet(names)) == SumNames(names)
    decreases |names|
  {
    if names != [] {
      var k := |names| - 1;
      var init := names[..k];
      SumDistinctNames(init);
      assert names == init + [names[k]];
      assert ToSet(names) == ToSet(init) + {names[k]} && names[k] !in ToSet(init);
      SumSetTake(ToSet(names), names[k]);
      assert ToSet(names) - {names[k]} == ToSet(init);
    }
  }

  lemma {:induction false} SumDistinctCoins(coins: seq<Coin>)
    requires Distinct(coins)
    ensures SumSet(ClaimNames(coins)) == SumCoins(coins)
    decreases |coins|
  {
    if coins != [] {
      var k := |coins| - 1;
      var init, n := coins[..k], Id(coins[k]);
      SumDistinctCoins(init);
      assert coins == init + [coins[k]];
      assert ClaimNames(coins) == ClaimNames(init) + {n} && n !in ClaimNames(init);
      SumSetTake(ClaimNames(coins), n);
      assert ClaimNames(coins) - {n} == ClaimNames(init);
    }
  }

  // ---- What a block adds ------------------------------------------------------------------------

  /** A transaction block's additions are its claims and its children, with nothing in common. */
  lemma AdditionsSplit(b: Block)
    requires b.IsTx() && DistinctNames(Additions(b))
    ensures var claims, kids := b.body.value.claims, Children(b.body.value.spends);
            && NamesOf(Additions(b)) == ClaimNames(claims) + ClaimNames(kids)
            && ClaimNames(claims) !! ClaimNames(kids)
            && Distinct(kids)
  {
    var tx, adds := b.body.value, Additions(b);
    var claims, kids := tx.claims, Children(tx.spends);
    assert forall i :: 0 <= i < |claims| ==> adds[i].coin == claims[i];
    assert forall i :: 0 <= i < |kids| ==> adds[|claims| + i].coin == kids[i];
    forall n | n in NamesOf(adds)
      ensures n in ClaimNames(claims) + ClaimNames(kids)
    {
      var i :| 0 <= i < |adds| && n == Id(adds[i].coin);
      if i >= |claims| {
        assert adds[i].coin == kids[i - |claims|];
      }
    }
    forall n | n in ClaimNames(claims) + ClaimNames(kids)
      ensures n in NamesOf(adds)
    {
      if n in ClaimNames(claims) {
        var i :| 0 <= i < |claims| && n == Id(claims[i]);
        assert adds[i] in adds;
      } else {
        var i :| 0 <= i < |kids| && n == Id(kids[i]);
        assert adds[|claims| + i] in adds;
      }
    }
  }

  /** The claims owed for the heights `lo + 1..=hi`. */
  ghost function ClaimsBetween(chain: seq<Block>, lo: int, hi: int): set<Name>
    requires -1 <= lo <= hi < |chain|
  {
    (set h | lo < h <= hi :: Id(PoolCoin(chain[h]))) +
    (set h | lo < h <= hi :: Id(FarmerCoin(chain[h], FeesDue(chain, h))))
  }

  lemma ClaimHeight(chain: seq<Block>, lo: int, hi: int, n: Name)
    requires -1 <= lo <= hi < |chain| && n in ClaimsBetween(chain, lo, hi)
    requires forall i :: 0 <= i < |chain| ==> chain[i].height == i
    ensures n.Id? && !n.coin.parent.Id? && lo < n.coin.parent.height <= hi
  {
    hide PoolReward, FarmerReward, LastTx;
  }

  lemma ClaimsBetweenSplit(chain: seq<Block>, lo: int, hi: int)
    requires -1 <= lo < hi < |chain|
    ensures ClaimsBetween(chain, lo, hi) ==
            ClaimsBetween(chain, lo, hi - 1) + {Id(PoolCoin(chain[hi])), Id(FarmerCoin(chain[hi], FeesDue(chain, hi)))}
  {
    hide PoolReward, FarmerReward, LastTx;
  }

  lemma ClaimsBetweenStep(chain: seq<Block>, lo: int, hi: int)
    requires ValidChain(chain) && -1 <= lo < hi < |chain|
    ensures var pool, farmer := Id(PoolCoin(chain[hi])), Id(FarmerCoin(chain[hi], FeesDue(chain, hi)));
            var rest := ClaimsBetween(chain, lo, hi - 1);
            && ClaimsBetween(chain, lo, hi) == rest + {pool, farmer}
            && pool !in rest && farmer !in rest && pool != farmer
  {
    ValidHeights(chain);
    ClaimsBetweenSplit(chain, lo, hi);
    hide ValidChain, PoolReward, FarmerReward, LastTx, ClaimsBetween;
    forall n | n in ClaimsBetween(chain, lo, hi - 1)
      ensures n.Id? && !n.coin.parent.Id? && n.coin.parent.height < hi
    {
      ClaimHeight(chain, lo, hi - 1, n);
    }
  }

  lemma {:induction false} SumClaimsBetween(chain: seq<Block>, lo: int, hi: int)
    requires ValidChain(chain) && -1 <= lo <= hi <= LastTx(chain)
    ensures SumSet(ClaimsBetween(chain, lo, hi)) ==
            BaseRewards(hi) - BaseRewards(lo) + if lo < hi == LastTx(chain) then LastFees(chain) else 0
    decreases hi - lo
  {
    hide ValidChain, PoolReward, FarmerReward;
    if lo == hi {
      assert ClaimsBetween(chain, lo, hi) == {};
    } else {
      ValidHeights(chain);
      var pool, farmer := Id(PoolCoin(chain[hi])), Id(FarmerCoin(chain[hi], FeesDue(chain, hi)));
      var rest, all := ClaimsBetween(chain, lo, hi - 1), ClaimsBetween(chain, lo, hi);
      SumClaimsBetween(chain, lo, hi - 1);
      ClaimsBetweenStep(chain, lo, hi);
      hide ClaimsBetween;
      SumSetTake(all, pool);
      SumSetTake(all - {pool}, farmer);
      assert all - {pool} - {farmer} == rest;
    }
  }

  lemma UnspentAcrossStep(t: Table, r: Table, adds: set<Name>, rems: set<Name>, height: nat)
    requires CleanStep(t, r, adds, rems, height)
    ensures UnspentSet(r) == UnspentSet(t) + adds - rems
    ensures rems <= UnspentSet(t) + adds && UnspentSet(t) !! adds
  {
  }

  /** The unspent total moves by what is claimed, less the fees the block collects. */
  lemma SupplyStep(chain: seq<Block>, b: Block)
    requires ValidChain(chain) && Accepts(chain, b) && b.IsTx()
    ensures SumSet(UnspentSet(Replay(chain + [b]))) + b.body.value.fees ==
            SumSet(UnspentSet(Replay(chain))) + SumSet(ExpectedClaims(chain))
  {
    hide Replay, ValidChain, ExpectedClaims;
    var adds, rems, kids := NamesOf(Additions(b)), ToSet(Removals(b)), Children(b.body.value.spends);
    var before, after := UnspentSet(Replay(chain)), UnspentSet(Replay(chain + [b]));
    AcceptedIsClean(chain, b);
    UnspentAcrossStep(Replay(chain), Replay(chain + [b]), adds, rems, |chain|);
    SumSetDisjoint(before, adds);
    SumSetDisjoint(after, rems);
    assert after + rems == before + adds;
    AdditionsSplit(b);
    SumSetDisjoint(ExpectedClaims(chain), ClaimNames(kids));
    SumDistinctCoins(kids);
    SumDistinctNames(Removals(b));
  }

  /** The supply law, for every valid chain. */
  lemma {:induction false} SupplyIsConserved(chain: seq<Block>)
    requires ValidChain(chain) && chain != []
    ensures SumSet(UnspentSet(Replay(chain))) + LastFees(chain) == BaseRewards(ClaimedTo(chain))
    decreases |chain|
  {
    var m := |chain| - 1;
    var init, b := chain[..m], chain[m];
    assert init + [b] == chain;
    ValidHeights(chain);
    LastTxStep(init, b);
    if b.IsTx() {
      SupplyStep(init, b);
      if init == [] {
        assert ExpectedClaims(init) == {};
      } else {
        SupplyIsConserved(init);
        SumClaimsBetween(init, ClaimedTo(init), LastTx(init));
        assert ClaimsBetween(init, ClaimedTo(init), LastTx(init)) == ExpectedClaims(init);
      }
    } else {
      SupplyIsConserved(init);
      ReplayStep(init, b);
    }
  }

  // ---- Rewards are claimed once -------------------------------------------------------------------

  /** The reward coins of block `h`; the farmer's carries the fees that block collected. */
  function RewardNames(chain: seq<Block>, h: nat): (Name, Name)
    requires h < |chain|
  {
    (Id(PoolCoin(chain[h])), Id(FarmerCoin(chain[h], Fees(chain[h]))))
  }

  /** In the claim window only the last transaction block has fees, so each farmer coin carries its own. */
  lemma FeesDueAreFees(chain: seq<Block>, h: nat)
    requires ClaimedTo(chain) < h <= LastTx(chain)
    ensures FeesDue(chain, h) == Fees(chain[h])
  {
    var last := LastTx(chain);
    assert h < last ==> !chain[..last][h].IsTx();
  }

  /** The two reward coins of a block in the claim window are expected. */
  lemma WindowIsExpected(chain: seq<Block>, h: nat)
    requires ClaimedTo(chain) < h <= LastTx(chain)
    ensures RewardNames(chain, h).0 in ExpectedClaims(chain) && RewardNames(chain, h).1 in ExpectedClaims(chain)
  {
    hide PoolReward, FarmerReward;
    FeesDueAreFees(chain, h);
  }

  /** An expected claim is one of the two reward coins of the block its parent id names. */
  lemma ExpectedIsReward(chain: seq<Block>, n: Name)
    requires ValidChain(chain) && n in ExpectedClaims(chain)
    ensures n.Id? && !n.coin.parent.Id? && ClaimedTo(chain) < n.coin.parent.height <= LastTx(chain)
    ensures var h := n.coin.parent.height;
            n == if n.coin.parent.PoolParent? then RewardNames(chain, h).0 else RewardNames(chain, h).1
  {
    hide PoolReward, FarmerReward, ValidChain;
    ValidHeights(chain);
    ClaimRange(chain, n);
    var h := n.coin.parent.height;
    FeesDueAreFees(chain, h);
  }

  /** Both rewards of every block up to the claim mark have been created. */
  lemma {:induction false} RewardsArePaid(chain: seq<Block>, h: nat)
    requires ValidChain(chain) && h <= ClaimedTo(chain)
    ensures RewardNames(chain, h).0 in Replay(chain) && RewardNames(chain, h).1 in Replay(chain)
    decreases |chain|
  {
    var m := |chain| - 1;
    var init, b := chain[..m], chain[m];
    assert init + [b] == chain;
    hide Replay, CoinRules, ExpectedClaims, Accepts, PoolReward, FarmerReward, ValidChain;
    ValidPrefix(chain, m);
    LastTxStep(init, b);
    KeysGrow(init, b);
    if h <= ClaimedTo(init) {
      RewardsArePaid(init, h);
    } else {
      ClaimsLand(init, b, h);
    }
  }

  lemma KeysGrow(chain: seq<Block>, b: Block)
    requires ValidChain(chain) && Accepts(chain, b)
    ensures Replay(chain + [b]).Keys == Replay(chain).Keys + NamesOf(Additions(b))
  {
    hide Apply, Accepts, Replay;
    AcceptedIsClean(chain, b);
  }

  /** Whether a coin is the one reward coin its parent id allows on this chain. */
  ghost predicate IsRewardOf(chain: seq<Block>, n: Name) {
    && n.Id? && !n.coin.parent.Id?
    && n.coin.parent.height <= ClaimedTo(chain)
    && var h := n.coin.parent.height;
       n == if n.coin.parent.PoolParent? then RewardNames(chain, h).0 else RewardNames(chain, h).1
  }

  /**
   Each block's two rewards are created exactly once: any coin with a reward parent is the reward
   coin of a block at or below the claim mark, whose coins `RewardsArePaid` shows are all there.
   */
  lemma {:induction false} RewardsClaimedOnce(chain: seq<Block>, n: Name)
    requires ValidChain(chain) && n in Replay(chain)
    requires n.Id? ==> !n.coin.parent.Id?
    ensures IsRewardOf(chain, n)
    decreases |chain|
  {
    var m := |chain| - 1;
    var init, b := chain[..m], chain[m];
    assert init + [b] == chain;
    hide Apply, CoinRules, ExpectedClaims, Accepts, PoolReward, FarmerReward;
    ReplayKeepsInv(chain);
    LastTxStep(init, b);
    KeysGrow(init, b);
    if n in Replay(init) {
      RewardsClaimedOnce(init, n);
    } else {
      NewRewardIsExpected(init, b, n);
    }
  }

  lemma ClaimsLand(chain: seq<Block>, b: Block, h: nat)
    requires ValidChain(chain) && Accepts(chain, b) && b.IsTx()
    requires ClaimedTo(chain) < h <= LastTx(chain)
    ensures RewardNames(chain, h).0 in NamesOf(Additions(b)) && RewardNames(chain, h).1 in NamesOf(Additions(b))
  {
    hide Replay, ExpectedClaims;
    WindowIsExpected(chain, h);
    AdditionsSplit(b);
  }

  lemma NewRewardIsExpected(chain: seq<Block>, b: Block, n: Name)
    requires ValidChain(chain) && Accepts(chain, b) && n in NamesOf(Additions(b)) && n.Id? && !n.coin.parent.Id?
    ensures chain != [] && b.IsTx()
    ensures ClaimedTo(chain) < n.coin.parent.height <= LastTx(chain)
    ensures var h := n.coin.parent.height;
            n == if n.coin.parent.PoolParent? then RewardNames(chain, h).0 else RewardNames(chain, h).1
  {
    AdditionOrigin(b, n);
    if n !in ClaimNames(b.body.value.claims) {
      var p := n.coin.parent;
      assert Spendable(chain, b, p);
      ReplayKeepsInv(chain);
      if p in NamesOf(Additions(b)) {
        AdditionOrigin(b, p);
      }
      assert false;
    }
    if chain == [] {
      GenesisCreatesNothing(b, n);
    }
    ExpectedIsReward(chain, n);
  }

  /** Rule 18 keeps the next farmer claim representable: the checked addition never fails. */
  lemma FarmerClaimFits(chain: seq<Block>, h: nat)
    requires ValidChain(chain) && h < |chain| && chain[h].IsTx()
    ensures FarmerReward(h) + Fees(chain[h]) <= MAX_COIN_AMOUNT
  {
    hide Replay;
    ValidPrefix(chain, h);
    ValidHeights(chain);
  }
}
