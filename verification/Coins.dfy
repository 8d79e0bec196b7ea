/**
 Coins, blocks and block deltas: the values the chain engine works on.

 A coin id is a SHA-256 digest over the parent id, the puzzle hash and the amount, and a reward
 coin's parent id is the genesis challenge combined with a height. Digests are modelled as
 collision free and acyclic by letting the id be its own preimage: `Id(coin)`.
 */
module Coins {

  type Byte = b: nat | b < 256

  type Hash = nat

  /** A sub-epoch summary, by its hash. */
  type Summary = nat

  datatype Option<+T> = None | Some(value: T)

  datatype Result<+T, +E> = Ok(value: T) | Err(error: E)

  datatype Name = PoolParent(height: nat) | FarmerParent(height: nat) | Id(coin: Coin)

  datatype Coin = Coin(parent: Name, puzzle: nat, amount: nat)

  /** A coin as the store serves it; `spent` is derived from a nonzero `spentIndex`. */
  datatype CoinRecord = CoinRecord(coin: Coin, confirmed: nat, spentIndex: nat, coinbase: bool,
                                   timestamp: nat, spent: bool)

  datatype Output = Output(puzzle: nat, amount: nat)

  datatype Spend = Spend(coinId: Name, creates: seq<Output>)

  /** What only a transaction block carries. */
  datatype TxBody = TxBody(timestamp: nat, prevTxHash: Hash, claims: seq<Coin>, fees: nat,
                           reserveFee: nat, spends: seq<Spend>)

  datatype Block = Block(hash: Hash, prev: Hash, height: nat, weight: nat, pool: nat, farmer: nat,
                         summary: Option<Summary>, body: Option<TxBody>)
  {
    predicate IsTx() { body.Some? }
  }

  /** The archived header row of a block. `timestamp` is present exactly on transaction blocks. */
  datatype BlockRecord = BlockRecord(hash: Hash, prev: Hash, height: nat, weight: nat, pool: nat,
                                     farmer: nat, summary: Option<Summary>,
                                     timestamp: Option<nat>, fees: Option<nat>)

  /** A validated block's contribution: the fork-choice fields and the coin delta. */
  datatype BlockDelta = BlockDelta(hash: Hash, prev: Hash, height: nat, weight: nat,
                                   timestamp: nat, record: BlockRecord,
                                   additions: seq<CoinRecord>, removals: seq<Name>)

  function NewCoinRecord(coin: Coin, height: nat, timestamp: nat, coinbase: bool): CoinRecord {
    CoinRecord(coin, height, 0, coinbase, timestamp, false)
  }

  function NewCoinRecords(coins: seq<Coin>, height: nat, timestamp: nat, coinbase: bool): (r: seq<CoinRecord>)
  {
    seq(|coins|, i requires 0 <= i < |coins| => NewCoinRecord(coins[i], height, timestamp, coinbase))
  }

  /** The coins one spend creates: children of the spent coin id. */
  function ChildrenOf(s: Spend): seq<Coin> {
    seq(|s.creates|, i requires 0 <= i < |s.creates| => Coin(s.coinId, s.creates[i].puzzle, s.creates[i].amount))
  }

  function Children(spends: seq<Spend>): seq<Coin> {
    if spends == [] then [] else Children(spends[..|spends| - 1]) + ChildrenOf(spends[|spends| - 1])
  }

  function SpentIds(spends: seq<Spend>): seq<Name> {
    seq(|spends|, i requires 0 <= i < |spends| => spends[i].coinId)
  }

  /** Reward claims first, then the children of the spends in spend order. */
  function Additions(b: Block): seq<CoinRecord> {
    match b.body
    case None => []
    case Some(tx) =>
      NewCoinRecords(tx.claims, b.height, tx.timestamp, true) +
      NewCoinRecords(Children(tx.spends), b.height, tx.timestamp, false)
  }

  function Removals(b: Block): seq<Name> {
    match b.body
    case None => []
    case Some(tx) => SpentIds(tx.spends)
  }

  function RecordOf(b: Block): BlockRecord {
    match b.body
    case None => BlockRecord(b.hash, b.prev, b.height, b.weight, b.pool, b.farmer, b.summary, None, None)
    case Some(tx) =>
      BlockRecord(b.hash, b.prev, b.height, b.weight, b.pool, b.farmer, b.summary, Some(tx.timestamp), Some(tx.fees))
  }

  function DeltaOf(b: Block): BlockDelta {
    BlockDelta(b.hash, b.prev, b.height, b.weight,
               if b.body.Some? then b.body.value.timestamp else 0,
               RecordOf(b), Additions(b), Removals(b))
  }

  /** The coin ids a list of coin records names. */
  function NamesOf(adds: seq<CoinRecord>): set<Name> {
    set a | a in adds :: Id(a.coin)
  }

  function ClaimNames(claims: seq<Coin>): set<Name> {
    set c | c in claims :: Id(c)
  }

  function ToSet<T>(s: seq<T>): set<T> {
    set x | x in s
  }

  predicate Distinct<T(==)>(s: seq<T>) {
    forall i, j :: 0 <= i < j < |s| ==> s[i] != s[j]
  }

  predicate DistinctNames(adds: seq<CoinRecord>) {
    forall i, j :: 0 <= i < j < |adds| ==> adds[i].coin != adds[j].coin
  }

  /** Every child coin's parent is one of the spends' coin ids. */
  lemma {:induction false} ChildParentIsSpent(spends: seq<Spend>, c: Coin)
    requires c in Children(spends)
    ensures c.parent in SpentIds(spends)
  {
    var n := |spends| - 1;
    if c in ChildrenOf(spends[n]) {
      assert SpentIds(spends)[n] == spends[n].coinId;
    } else {
      ChildParentIsSpent(spends[..n], c);
      var k :| 0 <= k < n && SpentIds(spends[..n])[k] == c.parent;
      assert SpentIds(spends)[k] == c.parent;
    }
  }

  /** An addition is either an incorporated reward claim or a child of a coin the block removes. */
  lemma AdditionOrigin(b: Block, n: Name)
    requires n in NamesOf(Additions(b))
    ensures n.Id? && b.body.Some?
    ensures n in ClaimNames(b.body.value.claims) || n.coin.parent in Removals(b)
  {
    var a :| a in Additions(b) && n == Id(a.coin);
    var tx := b.body.value;
    if n !in ClaimNames(tx.claims) {
      assert a in NewCoinRecords(Children(tx.spends), b.height, tx.timestamp, false);
      assert a.coin in Children(tx.spends);
      ChildParentIsSpent(tx.spends, a.coin);
    }
  }

  lemma AdditionShape(b: Block, a: CoinRecord)
    requires a in Additions(b)
    ensures b.body.Some? && a.confirmed == b.height && a.spentIndex == 0 && !a.spent
    ensures a.timestamp == b.body.value.timestamp
  {
  }
}
