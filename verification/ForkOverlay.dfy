/**
 Spend checking on any branch: the coin rows below the fork point plus an overlay of what the
 branch itself did above it. The verdict for each removal is shown to be the one that replaying
 the parent's own branch from genesis gives.
 */
module ForkOverlay {
  import opened Coins
  import opened CoinTable
  import opened Chain
  import opened Ledger

  /** `forkHeight` is the last ancestor whose coins are in the store, or -1 for none. */
  datatype ForkView = ForkView(forkHeight: int, additions: map<Name, CoinRecord>, removals: set<Name>)

  datatype SpendError = DoubleSpendInFork | DoubleSpend | UnknownUnspent

  datatype Verdict = Resolved(record: CoinRecord) | Rejected(error: SpendError)

  /** The store row stands for this branch: it was confirmed at or below the fork. */
  predicate AnsweredByStore(view: ForkView, coins: Table, n: Name) {
    n in coins && coins[n].confirmed <= view.forkHeight
  }

  predicate SpentBelow(view: ForkView, coins: Table, n: Name) {
    AnsweredByStore(view, coins, n) && coins[n].spentIndex != 0 && coins[n].spentIndex <= view.forkHeight
  }

  /** How one removal that is not created by the block itself resolves. */
  function Resolve(view: ForkView, coins: Table, n: Name): Verdict {
    if n in view.removals then Rejected(DoubleSpendInFork)
    else if AnsweredByStore(view, coins, n) then
      if SpentBelow(view, coins, n) then Rejected(DoubleSpend)
      else Resolved(ToRecord(coins[n]))
    else if n in view.additions then Resolved(Reopened(view.additions[n]))
    else Rejected(UnknownUnspent)
  }

  /** A coin created above the fork, as an unspent record. */
  function Reopened(a: CoinRecord): CoinRecord {
    CoinRecord(a.coin, a.confirmed, 0, a.coinbase, a.timestamp, false)
  }

  /** A coin created and spent inside the block at `height`. */
  function Ephemeral(a: CoinRecord, height: nat, timestamp: nat): CoinRecord {
    CoinRecord(a.coin, height, height, false, timestamp, false)
  }

  /** A record names the coin of a table row and carries its birth height and time. */
  predicate Matches(t: Table, n: Name, r: CoinRecord) {
    n in t && r.coin == t[n].coin && r.confirmed == t[n].confirmed && r.timestamp == t[n].timestamp
  }

  /** The view holds what the blocks `chain[view.forkHeight + 1..]` created and spent. */
  ghost predicate ViewOf(chain: seq<Block>, view: ForkView) {
    && -1 <= view.forkHeight < |chain|
    && view.additions.Keys == CreatedIn(chain[view.forkHeight + 1..])
    && view.removals == SpentIn(chain[view.forkHeight + 1..])
    && (forall n :: n in view.additions ==> Matches(Replay(chain), n, view.additions[n]))
  }

  lemma EmptyView()
    ensures ViewOf([], ForkView(-1, map[], {}))
  {
    hide Replay;
    var none: seq<Block> := [];
    assert none[0..] == none;
  }

  // ---- The verdict is the replay's ------------------------------------------------------------

  /** Rows confirmed at or below the fork are the common prefix's, spent there or not. */
  lemma RowsBelowFork(main: seq<Block>, f: int, n: Name)
    requires ValidChain(main) && -1 <= f < |main|
    ensures var t, base := Replay(main), Replay(main[..f + 1]);
            && (n in base <==> n in t && t[n].confirmed <= f)
            && (n in base ==> base[n] == t[n].(spentIndex := base[n].spentIndex))
            && (n in base ==> (base[n].spentIndex != 0 <==> t[n].spentIndex != 0 && t[n].spentIndex <= f))
  {
    hide Replay, ValidChain;
    RollbackUndoesSuffix(main, f);
  }

  /**
   The overlay refines replay: over the main chain's table, a removal resolves exactly when it is
   unspent after replaying the branch `chain` from genesis, to the coin, birth height and birth
   time of that replay; it is rejected as a double spend exactly when the branch has spent it, and
   as unknown exactly when the branch never created it.
   */
  lemma OverlayRefinesReplay(chain: seq<Block>, main: seq<Block>, view: ForkView, n: Name)
    requires ValidChain(chain) && ValidChain(main) && ViewOf(chain, view)
    requires view.forkHeight < |main| && chain[..view.forkHeight + 1] == main[..view.forkHeight + 1]
    ensures var v, t := Resolve(view, Replay(main), n), Replay(chain);
            && (v.Resolved? <==> Unspent(t, n))
            && (v.Resolved? ==> Matches(t, n, v.record))
            && (v.Rejected? && v.error != UnknownUnspent <==> Spent(t, n))
            && (v == Rejected(UnknownUnspent) <==> n !in t)
            && (v == Rejected(DoubleSpendInFork) <==> n in SpentIn(chain[view.forkHeight + 1..]))
  {
    hide Replay, ValidChain, CreatedIn, SpentIn, ViewOver, Resolve;
    RowsBelowFork(main, view.forkHeight, n);
    BranchTable(chain, view.forkHeight + 1);
    VerdictFromTables(Replay(chain[..view.forkHeight + 1]), Replay(chain), Replay(main), view, n);
  }

  /** The verdict decided from the prefix's, the branch's and the main chain's tables. */
  lemma VerdictFromTables(base: Table, t: Table, main: Table, view: ForkView, n: Name)
    requires ViewOver(base, t, view.additions.Keys, view.removals)
    requires n in base <==> n in main && main[n].confirmed <= view.forkHeight
    requires n in base ==> base[n] == main[n].(spentIndex := base[n].spentIndex)
    requires n in base ==> (base[n].spentIndex != 0 <==> main[n].spentIndex != 0 && main[n].spentIndex <= view.forkHeight)
    requires n in view.additions ==> Matches(t, n, view.additions[n])
    ensures var v := Resolve(view, main, n);
            && (v.Resolved? <==> Unspent(t, n))
            && (v.Resolved? ==> Matches(t, n, v.record))
            && (v.Rejected? && v.error != UnknownUnspent <==> Spent(t, n))
            && (v == Rejected(UnknownUnspent) <==> n !in t)
            && (v == Rejected(DoubleSpendInFork) <==> n in view.removals)
  {
  }

  // ---- Filling the view ---------------------------------------------------------------------------

  /** Fold one branch delta into the view: its additions become visible, its removals spent. */
  method FoldDelta(view: ForkView, d: BlockDelta) returns (r: ForkView)
    ensures r.forkHeight == view.forkHeight
    ensures r.removals == view.removals + ToSet(d.removals)
    ensures r.additions.Keys == view.additions.Keys + NamesOf(d.additions)
    ensures forall n :: n in r.additions ==>
              if n in NamesOf(d.additions) then r.additions[n] in d.additions && Id(r.additions[n].coin) == n
              else r.additions[n] == view.additions[n]
  {
    var adds := view.additions;
    for i := 0 to |d.additions|
      invariant adds.Keys == view.additions.Keys + NamesOf(d.additions[..i])
      invariant forall n :: n in adds ==>
                  if n in NamesOf(d.additions[..i]) then adds[n] in d.additions && Id(adds[n].coin) == n
                  else n in view.additions && adds[n] == view.additions[n]
    {
      assert d.additions[..i + 1] == d.additions[..i] + [d.additions[i]];
      assert NamesOf(d.additions[..i + 1]) == NamesOf(d.additions[..i]) + {Id(d.additions[i].coin)};
      adds := adds[Id(d.additions[i].coin) := d.additions[i]];
    }
    assert d.additions[..|d.additions|] == d.additions;
    r := ForkView(view.forkHeight, adds, view.removals + ToSet(d.removals));
  }

  lemma {:induction false} SegmentFront(blocks: seq<Block>)
    requires blocks != []
    ensures CreatedIn(blocks) == NamesOf(Additions(blocks[0])) + CreatedIn(blocks[1..])
    ensures SpentIn(blocks) == ToSet(Removals(blocks[0])) + SpentIn(blocks[1..])
    decreases |blocks|
  {
    var m := |blocks| - 1;
    var init := blocks[..m];
    if m > 0 {
      SegmentFront(init);
      assert blocks[1..][..m - 1] == init[1..] && blocks[1..][m - 1] == blocks[m];
    } else {
      assert init == [] && blocks[1..] == [];
    }
  }

  lemma AdditionMatchesTip(chain: seq<Block>, b: Block, a: CoinRecord)
    requires a in Additions(b)
    ensures Matches(Replay(chain + [b]), Id(a.coin), a)
  {
    hide Apply;
    ReplayStep(chain, b);
    ApplyAt(Replay(chain), DeltaOf(b));
    AdditionShape(b, a);
  }

  lemma MatchesLifts(base: Table, t: Table, created: set<Name>, spent: set<Name>, n: Name, a: CoinRecord)
    requires ViewOver(base, t, created, spent) && Matches(base, n, a)
    ensures Matches(t, n, a)
  {
  }

  /** A block's additions match the table of any valid chain that contains the block. */
  lemma AdditionMatches(chain: seq<Block>, k: nat, a: CoinRecord)
    requires ValidChain(chain) && k < |chain| && a in Additions(chain[k])
    ensures Matches(Replay(chain), Id(a.coin), a)
  {
    hide *;
    var upTo := chain[..k + 1];
    AdditionMatchesTip(chain[..k], chain[k], a);
    assert chain[..k] + [chain[k]] == upTo;
    BranchTable(chain, k + 1);
    MatchesLifts(Replay(upTo), Replay(chain), CreatedIn(chain[k + 1..]), SpentIn(chain[k + 1..]), Id(a.coin), a);
  }

  /** Folding block `k` into a view of the blocks above `k` gives a view of the blocks from `k` up. */
  lemma ViewGrows(chain: seq<Block>, view: ForkView, r: ForkView, k: nat)
    requires ValidChain(chain) && k < |chain| && view.forkHeight == k && ViewOf(chain, view)
    requires r.forkHeight == k - 1
    requires r.removals == view.removals + ToSet(Removals(chain[k]))
    requires r.additions.Keys == view.additions.Keys + NamesOf(Additions(chain[k]))
    requires forall n :: n in r.additions ==>
               if n in NamesOf(Additions(chain[k])) then r.additions[n] in Additions(chain[k]) && Id(r.additions[n].coin) == n
               else r.additions[n] == view.additions[n]
    ensures ViewOf(chain, r)
  {
    hide ValidChain, Replay, Matches, CreatedIn, SpentIn, Additions, Removals, NamesOf;
    SegmentFront(chain[k..]);
    assert chain[k..][1..] == chain[k + 1..];
    assert r.additions.Keys == CreatedIn(chain[k..]) && r.removals == SpentIn(chain[k..]);
    forall n | n in r.additions
      ensures Matches(Replay(chain), n, r.additions[n])
    {
      if n in NamesOf(Additions(chain[k])) {
        AdditionMatches(chain, k, r.additions[n]);
      }
    }
  }

  // ---- Looking up the removals ------------------------------------------------------------------------

  /** The record a removal resolves to. */
  function Lookup(own: map<Name, CoinRecord>, height: nat, timestamp: nat, view: ForkView, coins: Table, n: Name): Verdict {
    if n in own then Resolved(Ephemeral(own[n], height, timestamp)) else Resolve(view, coins, n)
  }

  /** First pass: the block's own coins resolve at once; the rest go to the store, unless spent in the fork. */
  method SortRemovals(height: nat, timestamp: nat, own: map<Name, CoinRecord>, removals: seq<Name>, view: ForkView)
    returns (spentInFork: Option<Name>, records: map<Name, CoinRecord>, fromDb: seq<Name>)
    ensures spentInFork.Some? ==> spentInFork.value in removals && spentInFork.value !in own && spentInFork.value in view.removals
    ensures spentInFork.None? ==> forall n :: n in removals ==> n in own || n !in view.removals
    ensures spentInFork.None? ==> forall n :: n in fromDb <==> n in removals && n !in own
    ensures spentInFork.None? ==> forall n :: n in records <==> n in removals && n in own
    ensures forall n :: n in records ==> n in own && records[n] == Ephemeral(own[n], height, timestamp)
  {
    records, fromDb, spentInFork := map[], [], None;
    for i := 0 to |removals|
      invariant spentInFork.None?
      invariant forall n :: n in removals[..i] ==> n in own || n !in view.removals
      invariant forall n :: n in fromDb <==> n in removals[..i] && n !in own
      invariant forall n :: n in records <==> n in removals[..i] && n in own
      invariant forall n :: n in records ==> records[n] == Ephemeral(own[n], height, timestamp)
    {
      assert removals[..i + 1] == removals[..i] + [removals[i]];
      var rem := removals[i];
      if rem in own {
        records := records[rem := Ephemeral(own[rem], height, timestamp)];
      } else if rem in view.removals {
        spentInFork := Some(rem);
        return;
      } else {
        fromDb := fromDb + [rem];
      }
    }
    assert removals[..|removals|] == removals;
  }

  /** The batched multi-get: the rows that exist, in request order. */
  method ReadRows(coins: Table, names: seq<Name>) returns (found: seq<CoinRecord>)
    requires forall n :: n in coins ==> Id(coins[n].coin) == n
    ensures forall i :: 0 <= i < |found| ==>
              Id(found[i].coin) in names && Id(found[i].coin) in coins && found[i] == ToRecord(coins[Id(found[i].coin)])
    ensures forall n :: n in names && n in coins ==> ToRecord(coins[n]) in found
  {
    found := [];
    for i := 0 to |names|
      invariant forall k :: 0 <= k < |found| ==>
                  Id(found[k].coin) in names && Id(found[k].coin) in coins && found[k] == ToRecord(coins[Id(found[k].coin)])
      invariant forall n :: n in names[..i] && n in coins ==> ToRecord(coins[n]) in found
    {
      assert names[..i + 1] == names[..i] + [names[i]];
      if names[i] in coins {
        found := found + [ToRecord(coins[names[i]])];
      }
    }
    assert names[..|names|] == names;
  }

  /** Second pass: interpret the rows against the fork point; what they cannot answer goes to the fork. */
  method InterpretRows(fromDb: seq<Name>, view: ForkView, coins: Table)
    returns (spentBelow: Option<Name>, records: map<Name, CoinRecord>, lookInFork: seq<Name>)
    requires forall n :: n in coins ==> Id(coins[n].coin) == n
    ensures spentBelow.Some? ==> spentBelow.value in fromDb && SpentBelow(view, coins, spentBelow.value)
    ensures spentBelow.None? ==> forall n :: n in fromDb ==> !SpentBelow(view, coins, n)
    ensures spentBelow.None? ==> forall n :: n in lookInFork <==> n in fromDb && !AnsweredByStore(view, coins, n)
    ensures spentBelow.None? ==> forall n :: n in records <==> n in fromDb && AnsweredByStore(view, coins, n)
    ensures forall n :: n in records ==> n in coins && records[n] == ToRecord(coins[n])
  {
    var found := ReadRows(coins, fromDb);
    var foundNames: set<Name> := {};
    records, lookInFork, spentBelow := map[], [], None;
    for i := 0 to |found|
      invariant spentBelow.None?
      invariant foundNames == set k | 0 <= k < i :: Id(found[k].coin)
      invariant forall n :: n in foundNames ==> n in fromDb && n in coins && !SpentBelow(view, coins, n)
      invariant forall n :: n in lookInFork <==> n in foundNames && !AnsweredByStore(view, coins, n)
      invariant forall n :: n in records <==> n in foundNames && AnsweredByStore(view, coins, n)
      invariant forall n :: n in records ==> records[n] == ToRecord(coins[n])
    {
      var rec := found[i];
      var name := Id(rec.coin);
      foundNames := foundNames + {name};
      if rec.confirmed <= view.forkHeight {
        if rec.spent && rec.spentIndex <= view.forkHeight {
          spentBelow := Some(name);
          return;
        }
        records := records[name := rec];
      } else {
        lookInFork := lookInFork + [name];
      }
    }
    forall n | n in fromDb && n in coins
      ensures n in foundNames
    {
      var k :| 0 <= k < |found| && found[k] == ToRecord(coins[n]);
    }
    for i := 0 to |fromDb|
      invariant forall n :: n in lookInFork <==>
                  n in fromDb && !AnsweredByStore(view, coins, n) && (n in coins || n in fromDb[..i])
    {
      assert fromDb[..i + 1] == fromDb[..i] + [fromDb[i]];
      if fromDb[i] !in foundNames {
        lookInFork := lookInFork + [fromDb[i]];
      }
    }
    assert fromDb[..|fromDb|] == fromDb;
  }

  /** Third pass: what the store could not answer must have been created by the fork itself. */
  method ReadFork(lookInFork: seq<Name>, view: ForkView) returns (unknown: Option<Name>, records: map<Name, CoinRecord>)
    ensures unknown.Some? ==> unknown.value in lookInFork && unknown.value !in view.additions
    ensures unknown.None? ==> forall n :: n in lookInFork ==> n in view.additions
    ensures unknown.None? ==> forall n :: n in records <==> n in lookInFork
    ensures forall n :: n in records ==> n in view.additions && records[n] == Reopened(view.additions[n])
  {
    records, unknown := map[], None;
    for i := 0 to |lookInFork|
      invariant unknown.None?
      invariant forall n :: n in lookInFork[..i] ==> n in view.additions
      invariant forall n :: n in records <==> n in lookInFork[..i]
      invariant forall n :: n in records ==> records[n] == Reopened(view.additions[n])
    {
      assert lookInFork[..i + 1] == lookInFork[..i] + [lookInFork[i]];
      var name := lookInFork[i];
      if name !in view.additions {
        unknown := Some(name);
        return;
      }
      records := records[name := Reopened(view.additions[name])];
    }
    assert lookInFork[..|lookInFork|] == lookInFork;
  }

  /**
   Resolve every removal, in fixed precedence: created here, spent in the fork, then one batched
   store read interpreted against the fork point, then the fork's own additions. It succeeds
   exactly when each removal resolves; otherwise the error is the first class that applies.
   */
  method LookupRemovals(height: nat, timestamp: nat, own: map<Name, CoinRecord>, removals: seq<Name>,
                        view: ForkView, coins: Table)
    returns (r: Result<map<Name, CoinRecord>, SpendError>)
    requires forall n :: n in coins ==> Id(coins[n].coin) == n
    ensures r.Ok? <==> forall n :: n in removals ==> Lookup(own, height, timestamp, view, coins, n).Resolved?
    ensures r.Ok? ==> r.value.Keys == ToSet(removals)
    ensures r.Ok? ==> forall n :: n in r.value ==> Resolved(r.value[n]) == Lookup(own, height, timestamp, view, coins, n)
    ensures r.Err? ==> exists n :: n in removals && Lookup(own, height, timestamp, view, coins, n) == Rejected(r.error)
    ensures r.Err? && r.error != DoubleSpendInFork ==>
              forall n :: n in removals ==> Lookup(own, height, timestamp, view, coins, n) != Rejected(DoubleSpendInFork)
    ensures r == Err(UnknownUnspent) ==>
              forall n :: n in removals ==> Lookup(own, height, timestamp, view, coins, n) != Rejected(DoubleSpend)
  {
    hide ToRecord, Ephemeral, Reopened;
    var spentInFork, ownRecords, fromDb := SortRemovals(height, timestamp, own, removals, view);
    if spentInFork.Some? {
      assert Lookup(own, height, timestamp, view, coins, spentInFork.value) == Rejected(DoubleSpendInFork);
      return Err(DoubleSpendInFork);
    }
    var spentBelow, stored, lookInFork := InterpretRows(fromDb, view, coins);
    if spentBelow.Some? {
      assert Lookup(own, height, timestamp, view, coins, spentBelow.value) == Rejected(DoubleSpend);
      return Err(DoubleSpend);
    }
    var unknown, reopened := ReadFork(lookInFork, view);
    if unknown.Some? {
      assert Lookup(own, height, timestamp, view, coins, unknown.value) == Rejected(UnknownUnspent);
      return Err(UnknownUnspent);
    }
    return Ok(ownRecords + stored + reopened);
  }
}
