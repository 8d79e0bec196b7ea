/**
 Chains from genesis, the coin rules a block must meet on its own branch, and the replay of a
 chain into a coin table. `Replay` is the reference every store-backed path is compared with.
 */
module Chain {
  import opened Arithmetic
  import opened Coins
  import opened CoinTable

  const MAX_COIN_AMOUNT: nat := U64_MAX
  const BLOCKS_PER_YEAR: nat := 1_681_920

  function PoolReward(height: nat): nat {
    if height == 0 then (7_000_000_000_000 / 8) * 21_000_000
    else if height < 3 * BLOCKS_PER_YEAR then 7_000_000_000_000 / 4
    else if height < 6 * BLOCKS_PER_YEAR then 7_000_000_000_000 / 8
    else if height < 9 * BLOCKS_PER_YEAR then 7_000_000_000_000 / 16
    else if height < 12 * BLOCKS_PER_YEAR then 7_000_000_000_000 / 32
    else 7_000_000_000_000 / 64
  }

  function FarmerReward(height: nat): nat {
    if height == 0 then (1_000_000_000_000 / 8) * 21_000_000
    else if height < 3 * BLOCKS_PER_YEAR then 1_000_000_000_000 / 4
    else if height < 6 * BLOCKS_PER_YEAR then 1_000_000_000_000 / 8
    else if height < 9 * BLOCKS_PER_YEAR then 1_000_000_000_000 / 16
    else if height < 12 * BLOCKS_PER_YEAR then 1_000_000_000_000 / 32
    else 1_000_000_000_000 / 64
  }

  function Fees(b: Block): nat {
    if b.body.Some? then b.body.value.fees else 0
  }

  function PoolCoin(b: Block): Coin {
    Coin(PoolParent(b.height), b.pool, PoolReward(b.height))
  }

  function FarmerCoin(b: Block, fees: nat): Coin {
    Coin(FarmerParent(b.height), b.farmer, FarmerReward(b.height) + fees)
  }

  /** Index of the last transaction block, or -1. */
  function LastTx(chain: seq<Block>): (r: int)
    ensures -1 <= r < |chain|
    ensures r >= 0 ==> chain[r].IsTx()
    ensures forall i :: r < i < |chain| ==> !chain[i].IsTx()
  {
    if chain == [] then -1
    else if chain[|chain| - 1].IsTx() then |chain| - 1
    else LastTx(chain[..|chain| - 1])
  }

  /** The highest block whose rewards the chain has already paid out, or -1. */
  function ClaimedTo(chain: seq<Block>): (r: int)
    ensures -1 <= r < |chain|
    ensures LastTx(chain) >= 0 ==> r < LastTx(chain)
  {
    var last := LastTx(chain);
    if last < 0 then -1 else LastTx(chain[..last])
  }

  /** The fees the farmer coin of block `h` carries: only the last transaction block's own. */
  function FeesDue(chain: seq<Block>, h: nat): nat
    requires h < |chain|
  {
    if h == LastTx(chain) then Fees(chain[h]) else 0
  }

  /**
   The reward coins the next transaction block owes: both rewards of every block after the
   last-but-one transaction block up to the last one, whose farmer coin also carries its fees.
   */
  function ExpectedClaims(chain: seq<Block>): set<Name> {
    (set h | ClaimedTo(chain) < h <= LastTx(chain) :: Id(PoolCoin(chain[h]))) +
    (set h | ClaimedTo(chain) < h <= LastTx(chain) :: Id(FarmerCoin(chain[h], FeesDue(chain, h))))
  }

  function AmountOf(n: Name): nat {
    if n.Id? then n.coin.amount else 0
  }

  function SumNames(names: seq<Name>): nat {
    if names == [] then 0 else SumNames(names[..|names| - 1]) + AmountOf(names[|names| - 1])
  }

  function SumCoins(coins: seq<Coin>): nat {
    if coins == [] then 0 else SumCoins(coins[..|coins| - 1]) + coins[|coins| - 1].amount
  }

  function Replay(chain: seq<Block>): Table {
    if chain == [] then map[]
    else Apply(Replay(chain[..|chain| - 1]), DeltaOf(chain[|chain| - 1]))
  }

  /** What header validation binds: height, parent, and the previous transaction block. */
  predicate HeaderBinds(chain: seq<Block>, b: Block) {
    && b.height == |chain|
    && (chain == [] ==> b.IsTx())
    && (chain != [] ==> b.prev == chain[|chain| - 1].hash && b.weight > chain[|chain| - 1].weight)
    && (chain != [] && b.IsTx() && LastTx(chain) >= 0 ==> b.body.value.prevTxHash == chain[LastTx(chain)].hash)
  }

  /** Rule 5. */
  predicate ClaimsAreExact(chain: seq<Block>, tx: TxBody) {
    ClaimNames(tx.claims) == ExpectedClaims(chain) && |tx.claims| == |ExpectedClaims(chain)|
  }

  /** Rule 15 for one removal: created by this very block, or unspent on this block's own branch. */
  predicate Spendable(chain: seq<Block>, b: Block, n: Name) {
    n in NamesOf(Additions(b)) || Unspent(Replay(chain), n)
  }

  /** Rules 10, 13 and 14. */
  predicate DeltaRules(b: Block) {
    && (forall a :: a in Additions(b) ==> a.coin.amount <= MAX_COIN_AMOUNT)
    && DistinctNames(Additions(b))
    && Distinct(Removals(b))
  }

  /** Rules 15 to 19. */
  predicate SpendRules(chain: seq<Block>, b: Block)
    requires b.IsTx()
  {
    var tx := b.body.value;
    var removed := SumNames(Removals(b));
    var added := SumCoins(Children(tx.spends));
    && (forall n :: n in Removals(b) ==> Spendable(chain, b, n))
    && removed >= added
    && removed - added >= tx.reserveFee
    && removed - added + FarmerReward(b.height) <= MAX_COIN_AMOUNT
    && tx.fees == removed - added
  }

  predicate CoinRules(chain: seq<Block>, b: Block)
    requires b.IsTx()
  {
    ClaimsAreExact(chain, b.body.value) && DeltaRules(b) && SpendRules(chain, b)
  }

  predicate Accepts(chain: seq<Block>, b: Block) {
    HeaderBinds(chain, b) && (b.IsTx() ==> CoinRules(chain, b))
  }

  predicate ValidChain(chain: seq<Block>) {
    chain == [] || (ValidChain(chain[..|chain| - 1]) && Accepts(chain[..|chain| - 1], chain[|chain| - 1]))
  }

  // ---- Chain bookkeeping ----------------------------------------------------------------

  lemma {:induction false} ValidPrefix(chain: seq<Block>, k: nat)
    requires ValidChain(chain) && k <= |chain|
    ensures ValidChain(chain[..k])
    ensures k < |chain| ==> Accepts(chain[..k], chain[k])
    decreases |chain|
  {
    var m := |chain| - 1;
    if k == |chain| {
      assert chain[..k] == chain;
    } else if k < m {
      ValidPrefix(chain[..m], k);
      assert chain[..m][..k] == chain[..k];
    }
  }

  lemma ValidHeights(chain: seq<Block>)
    requires ValidChain(chain)
    ensures forall i :: 0 <= i < |chain| ==> chain[i].height == i
    ensures chain != [] ==> chain[0].IsTx() && LastTx(chain) >= 0
  {
    forall i | 0 <= i < |chain|
      ensures chain[i].height == i && (i == 0 ==> chain[i].IsTx())
    {
      ValidPrefix(chain, i);
    }
  }

  /** On a valid chain every block names the one below it, and weight rises all the way. */
  lemma {:induction false} WeightsRise(chain: seq<Block>, i: nat, j: nat)
    requires ValidChain(chain) && i < j < |chain|
    ensures chain[j].prev == chain[j - 1].hash && chain[i].weight < chain[j].weight
    decreases j
  {
    ValidPrefix(chain, j);
    hide ValidChain;
    if i < j - 1 {
      WeightsRise(chain, i, j - 1);
    }
  }

  lemma ReplayStep(chain: seq<Block>, b: Block)
    ensures Replay(chain + [b]) == Apply(Replay(chain), DeltaOf(b))
    ensures ValidChain(chain) && Accepts(chain, b) ==> ValidChain(chain + [b])
  {
    assert (chain + [b])[..|chain|] == chain;
  }

  lemma LastTxStep(chain: seq<Block>, b: Block)
    ensures LastTx(chain + [b]) == if b.IsTx() then |chain| else LastTx(chain)
    ensures ClaimedTo(chain + [b]) == if b.IsTx() then LastTx(chain) else ClaimedTo(chain)
  {
    var c := chain + [b];
    assert c[..|chain|] == chain;
    if !b.IsTx() && LastTx(chain) >= 0 {
      assert c[..LastTx(chain)] == chain[..LastTx(chain)];
    }
  }

  // ---- Coin ids are created once ----------------------------------------------------------

  /**
   The genesis block creates and spends nothing: it owes no claims, so every coin it creates has a
   parent it removes, and every coin it removes must be one it creates. Ids are acyclic.
   */
  lemma {:induction false} GenesisCreatesNothing(b: Block, n: Name)
    requires Accepts([], b)
    ensures n !in NamesOf(Additions(b)) && n !in Removals(b)
    decreases n
  {
    if n in NamesOf(Additions(b)) || n in Removals(b) {
      assert Spendable([], b, n);
      AdditionOrigin(b, n);
      GenesisCreatesNothing(b, n.coin.parent);
    }
  }

  /** The invariant of a replayed table. */
  ghost predicate TableInv(chain: seq<Block>) {
    var t := Replay(chain);
    forall n :: n in t ==>
      && n.Id? && t[n].coin == n.coin
      && t[n].confirmed < |chain| && t[n].spentIndex < |chain|
      && ParentInv(chain, t, n)
  }

  /** A coin's parent was spent when the coin was confirmed, or is a reward already paid out. */
  ghost predicate ParentInv(chain: seq<Block>, t: Table, n: Name)
    requires n in t && n.Id?
  {
    match n.coin.parent
    case Id(_) => n.coin.parent in t && t[n.coin.parent].spentIndex == t[n].confirmed > 0
    case PoolParent(h) => h <= ClaimedTo(chain)
    case FarmerParent(h) => h <= ClaimedTo(chain)
  }

  /** An expected claim is a reward of a block not yet paid out. */
  lemma ClaimRange(chain: seq<Block>, n: Name)
    requires ValidChain(chain) && n in ExpectedClaims(chain)
    ensures n.Id? && !n.coin.parent.Id?
    ensures ClaimedTo(chain) < n.coin.parent.height <= LastTx(chain)
  {
    ValidHeights(chain);
  }

  /** An accepted block never re-creates a coin id its branch already holds. */
  lemma {:induction false} AdditionsAreFresh(chain: seq<Block>, b: Block, n: Name)
    requires ValidChain(chain) && TableInv(chain) && Accepts(chain, b)
    requires n in NamesOf(Additions(b))
    ensures n !in Replay(chain)
    decreases n
  {
    hide Replay, ExpectedClaims, Additions, Removals, NamesOf, ClaimedTo, DeltaRules;
    AdditionOrigin(b, n);
    var t := Replay(chain);
    var p := n.coin.parent;
    assert n in t ==> ParentInv(chain, t, n);
    if n in ClaimNames(b.body.value.claims) {
      ClaimRange(chain, n);
    } else {
      assert Spendable(chain, b, p);
      if p in NamesOf(Additions(b)) {
        AdditionOrigin(b, p);
        AdditionsAreFresh(chain, b, p);
      }
    }
  }

  lemma TableInvStep(chain: seq<Block>, b: Block)
    requires ValidChain(chain) && TableInv(chain) && Accepts(chain, b)
    ensures TableInv(chain + [b])
  {
    var c := chain + [b];
    var t, r := Replay(chain), Replay(c);
    ReplayStep(chain, b);
    LastTxStep(chain, b);
    ApplyAt(t, DeltaOf(b));
    forall n | n in r
      ensures n.Id? && r[n].coin == n.coin && r[n].confirmed < |c| && r[n].spentIndex < |c|
      ensures ParentInv(c, r, n)
    {
      if chain == [] {
        GenesisCreatesNothing(b, n);
      } else if n in NamesOf(Additions(b)) {
        AdditionOrigin(b, n);
        var p := n.coin.parent;
        if n in ClaimNames(b.body.value.claims) {
          ClaimRange(chain, n);
        } else {
          assert Spendable(chain, b, p);
          if p in NamesOf(Additions(b)) {
            AdditionOrigin(b, p);
          }
        }
      } else {
        assert n in t && ParentInv(chain, t, n);
        var p := n.coin.parent;
        if p.Id? {
          assert p !in Removals(b) by {
            if p in Removals(b) {
              assert Spendable(chain, b, p);
              AdditionsAreFresh(chain, b, p);
            }
          }
          if p in NamesOf(Additions(b)) {
            AdditionsAreFresh(chain, b, p);
          }
        }
      }
    }
  }

  /** Every valid chain replays to a table that meets the invariant. */
  lemma {:induction false} ReplayKeepsInv(chain: seq<Block>)
    requires ValidChain(chain)
    ensures TableInv(chain)
    decreases |chain|
  {
    hide Accepts, Apply, ParentInv;
    if chain != [] {
      var m := |chain| - 1;
      ReplayKeepsInv(chain[..m]);
      TableInvStep(chain[..m], chain[m]);
      assert chain[..m] + [chain[m]] == chain;
    }
  }
}
