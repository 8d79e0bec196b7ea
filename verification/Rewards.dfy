/**
 The reward schedule in closed form, and the supply law in numbers: two coins a block at first, halved
 every three years down to an eighth, seven parts of eight to the pool and one to the farmer.
 */
module Rewards {
  import opened Arithmetic
  import opened Coins
  import opened CoinTable
  import opened Chain
  import opened Supply

  /** An amount halved `n` times. */
  function Halved(amount: nat, n: nat): nat {
    if n == 0 then amount else Halved(amount, n - 1) / 2
  }

  /** What a block pays pool and farmer together, in mojo. */
  function Subsidy(height: nat): nat {
    if height == 0 then 21_000_000 * 1_000_000_000_000
    else Halved(2_000_000_000_000, Min(height / 5_045_760, 4))
  }

  lemma Halvings(amount: nat)
    ensures Halved(amount, 0) == amount && Halved(amount, 1) == amount / 2 && Halved(amount, 2) == amount / 2 / 2
    ensures Halved(amount, 3) == amount / 2 / 2 / 2 && Halved(amount, 4) == amount / 2 / 2 / 2 / 2
  {
    assert Halved(amount, 2) == Halved(amount, 1) / 2;
    assert Halved(amount, 3) == Halved(amount, 2) / 2;
    assert Halved(amount, 4) == Halved(amount, 3) / 2;
  }

  lemma TierOf(height: nat)
    ensures var t := height / 5_045_760; 5_045_760 * t <= height < 5_045_760 * (t + 1)
  {
  }

  lemma SubsidyOf(height: nat)
    requires height > 0
    ensures Subsidy(height) == if height < 5_045_760 then 2_000_000_000_000
                               else if height < 10_091_520 then 1_000_000_000_000
                               else if height < 15_137_280 then 500_000_000_000
                               else if height < 20_183_040 then 250_000_000_000
                               else 125_000_000_000
  {
    Halvings(2_000_000_000_000);
    TierOf(height);
    hide Halved;
    var t := height / 5_045_760;
    assert Min(t, 4) == if height < 5_045_760 then 0
                        else if height < 10_091_520 then 1
                        else if height < 15_137_280 then 2
                        else if height < 20_183_040 then 3
                        else 4;
  }

  /** The schedule: an exact split of the subsidy, one part in eight to the farmer, at every height. */
  lemma Schedule(height: nat)
    ensures PoolReward(height) + FarmerReward(height) == Subsidy(height)
    ensures PoolReward(height) == 7 * FarmerReward(height) && 8 * FarmerReward(height) == Subsidy(height)
  {
    if height > 0 {
      SubsidyOf(height);
    }
  }

  /** How many of the heights from `first` on, at most `most` of them, are at or below `top`. */
  function Within(top: int, first: nat, most: nat): nat {
    if top < first then 0 else if top - first + 1 < most then top - first + 1 else most
  }

  /** The base rewards of all blocks up to a height. */
  function Paid(top: int): nat {
    if top < 0 then 0
    else
      21_000_000 * 1_000_000_000_000
      + 2_000_000_000_000 * Within(top, 1, 5_045_759)
      + 1_000_000_000_000 * Within(top, 5_045_760, 5_045_760)
      + 500_000_000_000 * Within(top, 10_091_520, 5_045_760)
      + 250_000_000_000 * Within(top, 15_137_280, 5_045_760)
      + 125_000_000_000 * (if top < 20_183_040 then 0 else top - 20_183_040 + 1)
  }

  lemma {:induction false} BaseRewardsArePaid(top: int)
    requires -1 <= top
    ensures BaseRewards(top) == Paid(top)
    decreases top
  {
    hide PoolReward, FarmerReward, Subsidy;
    if top >= 0 {
      BaseRewardsArePaid(top - 1);
      Schedule(top);
      if top > 0 {
        SubsidyOf(top);
      } else {
        GenesisSubsidy();
      }
    }
  }

  lemma GenesisSubsidy()
    ensures Subsidy(0) == 21_000_000 * 1_000_000_000_000
  {
  }

  /** The supply law in numbers: what is unspent and the fees nobody has claimed yet are what the schedule has paid. */
  lemma SupplyInNumbers(chain: seq<Block>)
    requires ValidChain(chain) && chain != []
    ensures SumSet(UnspentSet(Replay(chain))) + LastFees(chain) == Paid(ClaimedTo(chain))
  {
    SupplyIsConserved(chain);
    BaseRewardsArePaid(ClaimedTo(chain));
  }

  /** The table holds the pool's and the farmer's reward coin of a block at height `h`. */
  ghost predicate PaysFor(t: Table, b: Block, h: nat) {
    && Id(Coin(PoolParent(h), b.pool, Subsidy(h) / 8 * 7)) in t
    && Id(Coin(FarmerParent(h), b.farmer, Subsidy(h) / 8 + Fees(b))) in t
  }

  lemma PaidInNumbers(t: Table, b: Block)
    requires Id(PoolCoin(b)) in t && Id(FarmerCoin(b, Fees(b))) in t
    ensures PaysFor(t, b, b.height)
  {
    hide Subsidy, PoolReward, FarmerReward;
    Schedule(b.height);
  }

  /** The reward coins of every block up to the claim mark, coin by coin. */
  lemma RewardCoins(chain: seq<Block>, h: nat)
    requires ValidChain(chain) && h <= ClaimedTo(chain)
    ensures PaysFor(Replay(chain), chain[h], h)
  {
    hide Replay, PaysFor, PoolCoin, FarmerCoin, Fees;
    ValidHeights(chain);
    RewardsArePaid(chain, h);
    hide ValidChain;
    PaidInNumbers(Replay(chain), chain[h]);
  }
}
