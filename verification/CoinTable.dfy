/**
 The coin table of the store: one block's delta applied as upserts and spend marks, and the fork
 revert. Each specification function is paired with the statement loop that computes it.
 */
module CoinTable {
  import opened Coins

  /** One row. `spentIndex == 0` encodes "unspent", so a spend at height 0 cannot be recorded. */
  datatype Row = Row(coin: Coin, confirmed: nat, spentIndex: nat, coinbase: bool, timestamp: nat)

  type Table = map<Name, Row>

  function ToRecord(r: Row): CoinRecord {
    CoinRecord(r.coin, r.confirmed, r.spentIndex, r.coinbase, r.timestamp, r.spentIndex != 0)
  }

  predicate Unspent(t: Table, n: Name) {
    n in t && t[n].spentIndex == 0
  }

  predicate Spent(t: Table, n: Name) {
    n in t && t[n].spentIndex != 0
  }

  /** Upsert the additions in order: each lands unspent, replacing any row of the same name. */
  function InsertAll(t: Table, adds: seq<CoinRecord>, height: nat, timestamp: nat): Table {
    if adds == [] then t
    else
      var a := adds[|adds| - 1];
      InsertAll(t, adds[..|adds| - 1], height, timestamp)
        [Id(a.coin) := Row(a.coin, height, 0, a.coinbase, timestamp)]
  }

  /** Mark the removals spent at `height`; a name without a row is left alone. */
  function SpendAll(t: Table, rems: seq<Name>, height: nat): Table {
    if rems == [] then t
    else
      var t' := SpendAll(t, rems[..|rems| - 1], height);
      var r := rems[|rems| - 1];
      if r in t' then t'[r := t'[r].(spentIndex := height)] else t'
  }

  function Apply(t: Table, d: BlockDelta): Table {
    SpendAll(InsertAll(t, d.additions, d.height, d.timestamp), d.removals, d.height)
  }

  /** Delete rows confirmed above the fork, then clear spend marks above it. */
  function RollbackTo(t: Table, fork: int): Table {
    map n | n in t && t[n].confirmed <= fork ::
      if t[n].spentIndex > fork then t[n].(spentIndex := 0) else t[n]
  }

  lemma {:induction false} InsertAllAt(t: Table, adds: seq<CoinRecord>, height: nat, timestamp: nat)
    ensures var r := InsertAll(t, adds, height, timestamp);
            && r.Keys == t.Keys + NamesOf(adds)
            && (forall n :: n in t && n !in NamesOf(adds) ==> r[n] == t[n])
            && (forall n :: n in NamesOf(adds) ==>
                  n.Id? && r[n] == Row(n.coin, height, 0, r[n].coinbase, timestamp))
  {
    if adds != [] {
      var k := |adds| - 1;
      InsertAllAt(t, adds[..k], height, timestamp);
      assert adds == adds[..k] + [adds[k]];
      assert NamesOf(adds) == NamesOf(adds[..k]) + {Id(adds[k].coin)};
    }
  }

  lemma {:induction false} SpendAllAt(t: Table, rems: seq<Name>, height: nat)
    ensures var r := SpendAll(t, rems, height);
            && r.Keys == t.Keys
            && (forall n :: n in t ==> r[n] == if n in rems then t[n].(spentIndex := height) else t[n])
  {
    if rems != [] {
      var k := |rems| - 1;
      SpendAllAt(t, rems[..k], height);
      assert rems == rems[..k] + [rems[k]];
    }
  }

  /** What applying a delta does to any one name. */
  lemma ApplyAt(t: Table, d: BlockDelta)
    ensures var r := Apply(t, d);
            && r.Keys == t.Keys + NamesOf(d.additions)
            && (forall n :: n in r ==>
                  && r[n].spentIndex == (if n in d.removals then d.height
                                         else if n in NamesOf(d.additions) then 0 else t[n].spentIndex)
                  && (n in NamesOf(d.additions) ==>
                        n.Id? && r[n].coin == n.coin && r[n].confirmed == d.height && r[n].timestamp == d.timestamp)
                  && (n !in NamesOf(d.additions) ==> r[n] == t[n].(spentIndex := r[n].spentIndex)))
  {
    InsertAllAt(t, d.additions, d.height, d.timestamp);
    SpendAllAt(InsertAll(t, d.additions, d.height, d.timestamp), d.removals, d.height);
  }

  /** The upsert and update statements of one block, in statement order. */
  method ApplyBlock(t: Table, d: BlockDelta) returns (r: Table)
    ensures r == Apply(t, d)
  {
    r := t;
    for i := 0 to |d.additions|
      invariant r == InsertAll(t, d.additions[..i], d.height, d.timestamp)
    {
      var a := d.additions[i];
      assert d.additions[..i + 1] == d.additions[..i] + [a];
      assert d.additions[..i + 1][..i] == d.additions[..i];
      r := r[Id(a.coin) := Row(a.coin, d.height, 0, a.coinbase, d.timestamp)];
    }
    assert d.additions[..|d.additions|] == d.additions;
    ghost var inserted := r;
    for i := 0 to |d.removals|
      invariant r == SpendAll(inserted, d.removals[..i], d.height)
    {
      var n := d.removals[i];
      assert d.removals[..i + 1] == d.removals[..i] + [n];
      assert d.removals[..i + 1][..i] == d.removals[..i];
      if n in r {
        r := r[n := r[n].(spentIndex := d.height)];
      }
    }
    assert d.removals[..|d.removals|] == d.removals;
  }

  /** The two statements of the fork revert. */
  method Rollback(t: Table, fork: nat) returns (r: Table)
    ensures r == RollbackTo(t, fork)
  {
    var kept := map n | n in t && t[n].confirmed <= fork :: t[n];
    r := map n | n in kept :: if kept[n].spentIndex > fork then kept[n].(spentIndex := 0) else kept[n];
  }
}
