/**
 What a block adds and removes, output by output, and the rows a valid chain has for it. Nothing here
 is stated through the functions that build a delta.
 */
module Outputs {
  import opened Coins
  import opened CoinTable
  import opened Chain
  import opened Ledger

  /** The number of outputs of the first `k` spends. */
  function Before(spends: seq<Spend>, k: nat): nat
    requires k <= |spends|
  {
    if k == 0 then 0 else Before(spends, k - 1) + |spends[k - 1].creates|
  }

  lemma {:induction false} BeforeInit(spends: seq<Spend>, m: nat, k: nat)
    requires k <= m <= |spends|
    ensures Before(spends[..m], k) == Before(spends, k)
    decreases k
  {
    if k > 0 {
      BeforeInit(spends, m, k - 1);
    }
  }

  lemma {:induction false} BeforeGrows(spends: seq<Spend>, i: nat, k: nat)
    requires i < k <= |spends|
    ensures Before(spends, i) + |spends[i].creates| <= Before(spends, k)
    decreases k
  {
    if i < k - 1 {
      BeforeGrows(spends, i, k - 1);
    }
  }

  lemma {:induction false} ChildCount(spends: seq<Spend>)
    ensures |Children(spends)| == Before(spends, |spends|)
    decreases |spends|
  {
    if spends != [] {
      var m := |spends| - 1;
      ChildCount(spends[..m]);
      BeforeInit(spends, m, m);
    }
  }

  lemma {:induction false} ChildAt(spends: seq<Spend>, i: nat, j: nat)
    requires i < |spends| && j < |spends[i].creates|
    ensures Before(spends, i) + j < |Children(spends)|
    ensures Children(spends)[Before(spends, i) + j] ==
            Coin(spends[i].coinId, spends[i].creates[j].puzzle, spends[i].creates[j].amount)
    decreases |spends|
  {
    var m := |spends| - 1;
    ChildCount(spends);
    ChildCount(spends[..m]);
    BeforeInit(spends, m, m);
    BeforeInit(spends, m, i);
    if i < m {
      ChildAt(spends[..m], i, j);
    }
  }

  lemma {:induction false} ChildIs(spends: seq<Spend>, k: nat) returns (i: nat, j: nat)
    requires k < |Children(spends)|
    ensures i < |spends| && j < |spends[i].creates| && k == Before(spends, i) + j
    decreases |spends|
  {
    var m := |spends| - 1;
    ChildCount(spends);
    ChildCount(spends[..m]);
    BeforeInit(spends, m, m);
    if k < |Children(spends[..m])| {
      i, j := ChildIs(spends[..m], k);
      BeforeInit(spends, m, i);
    } else {
      i, j := m, k - Before(spends, m);
    }
  }

  /** Output `j` of spend `i` has its place among the additions: a child of the coin spent, with its own puzzle and amount. */
  ghost predicate Placed(b: Block, i: nat, j: nat)
    requires b.IsTx() && i < |b.body.value.spends| && j < |b.body.value.spends[i].creates|
  {
    var tx, adds := b.body.value, Additions(b);
    var k, o := |tx.claims| + Before(tx.spends, i) + j, tx.spends[i].creates[j];
    k < |adds| && adds[k] == CoinRecord(Coin(tx.spends[i].coinId, o.puzzle, o.amount), b.height, 0, false, tx.timestamp, false)
  }

  /**
   The additions of a transaction block: its claims in order, as coinbase coins, and then the outputs
   of its spends in order; all of them unspent, at the block's height and time. Its removals are the
   coins spent, in order.
   */
  lemma AdditionsExactly(b: Block)
    requires b.IsTx()
    ensures var tx, adds := b.body.value, Additions(b);
            && |adds| == |tx.claims| + Before(tx.spends, |tx.spends|)
            && (forall k {:trigger tx.claims[k]} :: 0 <= k < |tx.claims| ==>
                  adds[k] == CoinRecord(tx.claims[k], b.height, 0, true, tx.timestamp, false))
            && (forall i, j {:trigger Placed(b, i, j)} ::
                  0 <= i < |tx.spends| && 0 <= j < |tx.spends[i].creates| ==> Placed(b, i, j))
            && |Removals(b)| == |tx.spends| && (forall i :: 0 <= i < |tx.spends| ==> Removals(b)[i] == tx.spends[i].coinId)
  {
    var tx := b.body.value;
    ChildCount(tx.spends);
    hide Children, Before;
    forall i, j | 0 <= i < |tx.spends| && 0 <= j < |tx.spends[i].creates|
      ensures Placed(b, i, j)
    {
      ChildAt(tx.spends, i, j);
    }
  }

  /** Every addition that is not a claim is an output. */
  lemma AdditionIsOutput(b: Block, k: nat) returns (i: nat, j: nat)
    requires b.IsTx() && |b.body.value.claims| <= k < |Additions(b)|
    ensures var tx := b.body.value;
            i < |tx.spends| && j < |tx.spends[i].creates| && k == |tx.claims| + Before(tx.spends, i) + j
  {
    var tx := b.body.value;
    i, j := ChildIs(tx.spends, k - |tx.claims|);
  }

  // ---- Rows ---------------------------------------------------------------------------------------------------

  /** The coin is claimed by the block. */
  ghost predicate IsClaim(b: Block, c: Coin) {
    b.IsTx() && c in b.body.value.claims
  }

  /** The coin is an output of one of the block's spends. */
  ghost predicate IsOutput(b: Block, c: Coin) {
    b.IsTx() && exists i, j {:trigger b.body.value.spends[i].creates[j]} ::
      && 0 <= i < |b.body.value.spends| && 0 <= j < |b.body.value.spends[i].creates|
      && c == Coin(b.body.value.spends[i].coinId, b.body.value.spends[i].creates[j].puzzle,
                   b.body.value.spends[i].creates[j].amount)
  }

  /** The coins a block adds, and how each is recorded. */
  lemma AddedCoins(b: Block, c: Coin)
    ensures Id(c) in NamesOf(Additions(b)) <==> IsClaim(b, c) || IsOutput(b, c)
    ensures forall a {:trigger a in Additions(b)} :: a in Additions(b) && a.coin == c ==>
              && b.IsTx() && a.timestamp == b.body.value.timestamp
              && (a.coinbase ==> IsClaim(b, c)) && (!a.coinbase ==> IsOutput(b, c))
  {
    if b.IsTx() {
      var tx, adds := b.body.value, Additions(b);
      AdditionsExactly(b);
      hide Additions, Before;
      forall a | a in adds && a.coin == c
        ensures a.timestamp == tx.timestamp
        ensures (a.coinbase ==> IsClaim(b, c)) && (!a.coinbase ==> IsOutput(b, c))
      {
        var k :| 0 <= k < |adds| && adds[k] == a;
        if k < |tx.claims| {
          assert tx.claims[k] in tx.claims;
        } else {
          var i, j := AdditionIsOutput(b, k);
          assert Placed(b, i, j);
          var o := tx.spends[i].creates[j];
          assert a.coin == Coin(tx.spends[i].coinId, o.puzzle, o.amount);
        }
      }
      if IsClaim(b, c) {
        var k :| 0 <= k < |tx.claims| && tx.claims[k] == c;
        assert adds[k] in adds;
      } else if IsOutput(b, c) {
        var i, j :| && 0 <= i < |tx.spends| && 0 <= j < |tx.spends[i].creates|
                    && c == Coin(tx.spends[i].coinId, tx.spends[i].creates[j].puzzle, tx.spends[i].creates[j].amount);
        assert Placed(b, i, j);
        assert adds[|tx.claims| + Before(tx.spends, i) + j] in adds;
      }
    }
  }

  lemma {:induction false} InsertedRow(t: Table, adds: seq<CoinRecord>, height: nat, timestamp: nat, a: CoinRecord)
    requires DistinctNames(adds) && a in adds
    ensures Id(a.coin) in InsertAll(t, adds, height, timestamp)
    ensures InsertAll(t, adds, height, timestamp)[Id(a.coin)] == Row(a.coin, height, 0, a.coinbase, timestamp)
    decreases |adds|
  {
    var m := |adds| - 1;
    if adds[m] != a {
      assert adds == adds[..m] + [adds[m]];
      InsertedRow(t, adds[..m], height, timestamp, a);
      var k :| 0 <= k < m && adds[k] == a;
      assert adds[k].coin != adds[m].coin;
    }
  }

  /** The row of a coin the last block of a chain adds. */
  lemma NewRow(chain: seq<Block>, b: Block, a: CoinRecord)
    requires ValidChain(chain) && Accepts(chain, b) && a in Additions(b)
    ensures Id(a.coin) in Replay(chain + [b])
    ensures var row := Replay(chain + [b])[Id(a.coin)];
            row.coin == a.coin && row.confirmed == |chain| && row.coinbase == a.coinbase && row.timestamp == a.timestamp
  {
    AdditionShape(b, a);
    hide Replay, ValidChain, InsertAll, SpendAll;
    ReplayStep(chain, b);
    var d := DeltaOf(b);
    InsertedRow(Replay(chain), d.additions, d.height, d.timestamp, a);
    SpendAllAt(InsertAll(Replay(chain), d.additions, d.height, d.timestamp), d.removals, d.height);
  }

  lemma AddedRecord(b: Block, n: Name) returns (a: CoinRecord)
    requires n in NamesOf(Additions(b))
    ensures a in Additions(b) && n == Id(a.coin)
  {
    a :| a in Additions(b) && n == Id(a.coin);
  }

  /**
   The rows of a valid chain born at a height are exactly the claims and outputs of the block there, each
   with that block's time, and as coinbase exactly if it is a claim.
   */
  lemma {:induction false} RowsBornAt(chain: seq<Block>, h: nat, n: Name)
    requires ValidChain(chain) && h < |chain|
    ensures var t, b := Replay(chain), chain[h];
            && (n in t && t[n].confirmed == h <==> n.Id? && (IsClaim(b, n.coin) || IsOutput(b, n.coin)))
            && (n in t && t[n].confirmed == h ==>
                  && t[n].coin == n.coin && t[n].timestamp == b.body.value.timestamp
                  && (t[n].coinbase <==> IsClaim(b, n.coin)) && (!t[n].coinbase <==> IsOutput(b, n.coin)))
    decreases |chain|
  {
    var m := |chain| - 1;
    var init, last := chain[..m], chain[m];
    assert init + [last] == chain;
    hide Replay, Accepts, CleanStep, IsClaim, IsOutput, Additions, NamesOf;
    ReplayKeepsInv(chain);
    ReplayKeepsInv(init);
    AcceptedIsClean(init, last);
    RowsAcross(init, last, h, n);
    if h < m {
      RowsBornAt(init, h, n);
      assert init[h] == chain[h];
    } else if n.Id? {
      AddedCoins(last, n.coin);
      if n in NamesOf(Additions(last)) {
        var a := AddedRecord(last, n);
        NewRow(init, last, a);
        OneKind(init, last, a);
      }
    }
  }

  /** What the last block does to the rows born at a height. */
  lemma RowsAcross(chain: seq<Block>, b: Block, h: nat, n: Name)
    requires ValidChain(chain) && Accepts(chain, b) && h <= |chain|
    requires CleanStep(Replay(chain), Replay(chain + [b]), NamesOf(Additions(b)), ToSet(Removals(b)), |chain|)
    requires forall x :: x in Replay(chain) ==> Replay(chain)[x].confirmed < |chain|
    ensures var t, r := Replay(chain), Replay(chain + [b]);
            && (h < |chain| ==> (n in r && r[n].confirmed == h <==> n in t && t[n].confirmed == h))
            && (h < |chain| && n in t ==> n in r && r[n] == t[n].(spentIndex := r[n].spentIndex))
            && (h == |chain| ==> (n in r && r[n].confirmed == h <==> n in NamesOf(Additions(b))))
  {
    hide Replay, Additions, ValidChain, Accepts, NamesOf;
  }

  /** An added coin is a claim or an output, not both. */
  lemma OneKind(chain: seq<Block>, b: Block, a: CoinRecord)
    requires Accepts(chain, b) && a in Additions(b)
    ensures b.IsTx() && (a.coinbase <==> IsClaim(b, a.coin)) && (!a.coinbase <==> IsOutput(b, a.coin))
  {
    AddedCoins(b, a.coin);
    if IsClaim(b, a.coin) {
      NotBoth(b, a.coin);
    }
  }

  lemma NotBoth(b: Block, c: Coin)
    requires b.IsTx() && DistinctNames(Additions(b)) && IsClaim(b, c)
    ensures !IsOutput(b, c)
  {
    var tx, adds := b.body.value, Additions(b);
    AdditionsExactly(b);
    hide Additions, Before;
    var x :| 0 <= x < |tx.claims| && tx.claims[x] == c;
    forall i, j | 0 <= i < |tx.spends| && 0 <= j < |tx.spends[i].creates|
      ensures c != Coin(tx.spends[i].coinId, tx.spends[i].creates[j].puzzle, tx.spends[i].creates[j].amount)
    {
      assert Placed(b, i, j);
      assert adds[x].coin != adds[|tx.claims| + Before(tx.spends, i) + j].coin;
    }
  }

  // ---- Totals ---------------------------------------------------------------------------------------------------

  function OutputTotal(outs: seq<Output>): nat {
    if outs == [] then 0 else OutputTotal(outs[..|outs| - 1]) + outs[|outs| - 1].amount
  }

  /** The amounts of all outputs. */
  function Created(spends: seq<Spend>): nat {
    if spends == [] then 0 else Created(spends[..|spends| - 1]) + OutputTotal(spends[|spends| - 1].creates)
  }

  /** The amounts of all coins spent. */
  function Consumed(spends: seq<Spend>): nat {
    if spends == [] then 0
    else
      var s := spends[|spends| - 1];
      Consumed(spends[..|spends| - 1]) + if s.coinId.Id? then s.coinId.coin.amount else 0
  }

  lemma {:induction false} SumCoinsConcat(a: seq<Coin>, b: seq<Coin>)
    ensures SumCoins(a + b) == SumCoins(a) + SumCoins(b)
    decreases |b|
  {
    if b == [] {
      assert a + b == a;
    } else {
      var m := |b| - 1;
      SumCoinsConcat(a, b[..m]);
      assert (a + b)[..|a + b| - 1] == a + b[..m];
    }
  }

  lemma {:induction false} ChildrenOfTotal(s: Spend, k: nat)
    requires k <= |s.creates|
    ensures SumCoins(ChildrenOf(s)[..k]) == OutputTotal(s.creates[..k])
    decreases k
  {
    if k > 0 {
      ChildrenOfTotal(s, k - 1);
      assert ChildrenOf(s)[..k][..k - 1] == ChildrenOf(s)[..k - 1] && s.creates[..k][..k - 1] == s.creates[..k - 1];
    }
  }

  lemma {:induction false} ChildrenTotal(spends: seq<Spend>)
    ensures SumCoins(Children(spends)) == Created(spends)
    decreases |spends|
  {
    if spends != [] {
      var s := spends[|spends| - 1];
      ChildrenTotal(spends[..|spends| - 1]);
      SumCoinsConcat(Children(spends[..|spends| - 1]), ChildrenOf(s));
      ChildrenOfTotal(s, |s.creates|);
      assert ChildrenOf(s)[..|s.creates|] == ChildrenOf(s) && s.creates[..|s.creates|] == s.creates;
    }
  }

  lemma {:induction false} SpentTotal(spends: seq<Spend>)
    ensures SumNames(SpentIds(spends)) == Consumed(spends)
    decreases |spends|
  {
    if spends != [] {
      SpentTotal(spends[..|spends| - 1]);
      assert SpentIds(spends)[..|spends| - 1] == SpentIds(spends[..|spends| - 1]);
    }
  }

  /**
   The money of every transaction block of a valid chain: its declared fees are what its spends consume
   less what they create, they cover the reserve fee, and no coin it adds exceeds 64 bits.
   */
  lemma BlockBalances(chain: seq<Block>, h: nat)
    requires ValidChain(chain) && h < |chain| && chain[h].IsTx()
    ensures var tx := chain[h].body.value;
            && Consumed(tx.spends) == Created(tx.spends) + tx.fees && tx.fees >= tx.reserveFee
            && (forall c :: IsClaim(chain[h], c) || IsOutput(chain[h], c) ==> c.amount <= 0xFFFF_FFFF_FFFF_FFFF)
  {
    hide Replay, IsClaim, IsOutput, Additions;
    var b := chain[h];
    ValidPrefix(chain, h);
    ChildrenTotal(b.body.value.spends);
    SpentTotal(b.body.value.spends);
    forall c | IsClaim(b, c) || IsOutput(b, c)
      ensures c.amount <= 0xFFFF_FFFF_FFFF_FFFF
    {
      AddedCoins(b, c);
      var a := AddedRecord(b, Id(c));
    }
  }
}
