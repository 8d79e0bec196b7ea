/**
 What replay means for one coin: rolling back to a fork gives the replay of the common prefix, and
 a branch's table is the common prefix plus what the branch itself created and spent.
 */
module Ledger {
  import opened Coins
  import opened CoinTable
  import opened Chain

  /** The coins created by the blocks of a chain segment. */
  function CreatedIn(blocks: seq<Block>): set<Name> {
    if blocks == [] then {}
    else CreatedIn(blocks[..|blocks| - 1]) + NamesOf(Additions(blocks[|blocks| - 1]))
  }

  /** The coins spent by the blocks of a chain segment. */
  function SpentIn(blocks: seq<Block>): set<Name> {
    if blocks == [] then {}
    else SpentIn(blocks[..|blocks| - 1]) + ToSet(Removals(blocks[|blocks| - 1]))
  }

  /** A table step that overwrites no row and moves no spend mark. */
  ghost predicate CleanStep(t: Table, r: Table, adds: set<Name>, rems: set<Name>, height: nat) {
    && r.Keys == t.Keys + adds && t.Keys !! adds
    && (forall n :: n in rems ==> n in r && height > 0)
    && (forall n :: n in rems && n in t ==> t[n].spentIndex == 0)
    && (forall n :: n in t && n in rems ==> r[n] == t[n].(spentIndex := height))
    && (forall n :: n in t && n !in rems ==> r[n] == t[n])
    && (forall n :: n in adds ==> r[n].confirmed == height)
    && (forall n :: n in adds ==> r[n].spentIndex == if n in rems then height else 0)
  }

  lemma ApplyIsClean(t: Table, d: BlockDelta)
    requires t.Keys !! NamesOf(d.additions)
    requires forall n :: n in d.removals ==> d.height > 0 && (n in NamesOf(d.additions) || Unspent(t, n))
    ensures CleanStep(t, Apply(t, d), NamesOf(d.additions), ToSet(d.removals), d.height)
  {
    ApplyAt(t, d);
  }

  /** An accepted block's delta creates only new coins and spends only unspent ones. */
  lemma AcceptedIsClean(chain: seq<Block>, b: Block)
    requires ValidChain(chain) && Accepts(chain, b)
    ensures CleanStep(Replay(chain), Replay(chain + [b]), NamesOf(Additions(b)), ToSet(Removals(b)), |chain|)
  {
    hide Apply, CleanStep, ValidChain;
    ReplayKeepsInv(chain);
    ReplayStep(chain, b);
    forall n | n in NamesOf(Additions(b))
      ensures n !in Replay(chain)
    {
      AdditionsAreFresh(chain, b, n);
    }
    forall n | n in Removals(b)
      ensures |chain| > 0 && Spendable(chain, b, n)
    {
      if chain == [] {
        GenesisCreatesNothing(b, n);
      }
    }
    ApplyIsClean(Replay(chain), DeltaOf(b));
  }

  lemma RollbackAcrossStep(t: Table, r: Table, adds: set<Name>, rems: set<Name>, height: nat, k: int)
    requires CleanStep(t, r, adds, rems, height) && k < height
    ensures RollbackTo(r, k) == RollbackTo(t, k)
  {
    forall n | n in RollbackTo(r, k)
      ensures n in t
    {
    }
    forall n | n in t
      ensures n in RollbackTo(t, k) <==> n in RollbackTo(r, k)
      ensures n in RollbackTo(t, k) ==> RollbackTo(t, k)[n] == RollbackTo(r, k)[n]
    {
      assert n in r && n !in adds;
    }
  }

  lemma WholeTableStays(chain: seq<Block>)
    requires ValidChain(chain)
    ensures RollbackTo(Replay(chain), |chain| - 1) == Replay(chain)
  {
    hide Replay, ValidChain, ParentInv;
    ReplayKeepsInv(chain);
  }

  /** Rolling a replayed table back to height `k` gives the replay of the blocks up to `k`. */
  lemma {:induction false} RollbackUndoesSuffix(chain: seq<Block>, k: int)
    requires ValidChain(chain) && -1 <= k < |chain|
    ensures RollbackTo(Replay(chain), k) == Replay(chain[..k + 1])
    decreases |chain|
  {
    hide Accepts, Apply, CleanStep;
    if |chain| == k + 1 {
      assert chain[..k + 1] == chain;
      WholeTableStays(chain);
    } else {
      var m := |chain| - 1;
      var init, last := chain[..m], chain[m];
      assert init + [last] == chain;
      AcceptedIsClean(init, last);
      RollbackAcrossStep(Replay(init), Replay(chain), NamesOf(Additions(last)), ToSet(Removals(last)), m, k);
      RollbackUndoesSuffix(init, k);
      assert init[..k + 1] == chain[..k + 1];
    }
  }

  /** A branch's table seen from a base table: base rows, plus what the branch created and spent. */
  ghost predicate ViewOver(base: Table, t: Table, created: set<Name>, spent: set<Name>) {
    && t.Keys == base.Keys + created && base.Keys !! created
    && (forall n :: n in spent ==> n in t)
    && (forall n :: n in spent && n in base ==> base[n].spentIndex == 0)
    && (forall n :: n in base && n in spent ==> t[n] == base[n].(spentIndex := t[n].spentIndex) && t[n].spentIndex != 0)
    && (forall n :: n in base && n !in spent ==> t[n] == base[n])
    && (forall n :: n in created ==> (t[n].spentIndex != 0 <==> n in spent))
  }

  lemma ViewAcrossStep(base: Table, t: Table, created: set<Name>, spent: set<Name>,
                       r: Table, adds: set<Name>, rems: set<Name>, height: nat)
    requires ViewOver(base, t, created, spent) && CleanStep(t, r, adds, rems, height)
    ensures ViewOver(base, r, created + adds, spent + rems)
  {
    forall n | n in base
      ensures n in t && n !in adds
    {
    }
  }

  /** A valid chain's table is a view over the table of each of its prefixes. */
  lemma {:induction false} BranchTable(chain: seq<Block>, k: nat)
    requires ValidChain(chain) && k <= |chain|
    ensures ViewOver(Replay(chain[..k]), Replay(chain), CreatedIn(chain[k..]), SpentIn(chain[k..]))
    decreases |chain|
  {
    hide Apply, CleanStep, Accepts, Replay, ValidChain, ViewOver, CreatedIn, SpentIn;
    if k == |chain| {
      assert chain[..k] == chain && chain[k..] == [];
      ViewOfItself(Replay(chain));
    } else {
      var m := |chain| - 1;
      var init, last := chain[..m], chain[m];
      assert init + [last] == chain;
      ValidPrefix(chain, m);
      BranchTable(init, k);
      AcceptedIsClean(init, last);
      assert init[..k] == chain[..k];
      SuffixGrows(chain, k);
      ViewAcrossStep(Replay(chain[..k]), Replay(init), CreatedIn(init[k..]), SpentIn(init[k..]),
                     Replay(chain), NamesOf(Additions(last)), ToSet(Removals(last)), m);
    }
  }

  lemma ViewOfItself(t: Table)
    ensures ViewOver(t, t, CreatedIn([]), SpentIn([]))
  {
  }

  lemma SuffixGrows(chain: seq<Block>, k: nat)
    requires k < |chain|
    ensures var m := |chain| - 1;
            && CreatedIn(chain[k..]) == CreatedIn(chain[..m][k..]) + NamesOf(Additions(chain[m]))
            && SpentIn(chain[k..]) == SpentIn(chain[..m][k..]) + ToSet(Removals(chain[m]))
  {
    var suffix := chain[k..];
    assert suffix[..|suffix| - 1] == chain[..|chain| - 1][k..];
  }

  lemma {:induction false} SpentInContains(blocks: seq<Block>, i: nat, n: Name)
    requires i < |blocks| && n in Removals(blocks[i])
    ensures n in SpentIn(blocks)
    decreases |blocks|
  {
    if i < |blocks| - 1 {
      SpentInContains(blocks[..|blocks| - 1], i, n);
    }
  }

  /** The replayed table holds exactly the coins the chain created, spent where it spent them. */
  lemma TableFromGenesis(chain: seq<Block>)
    requires ValidChain(chain)
    ensures Replay(chain).Keys == CreatedIn(chain)
    ensures forall n :: Spent(Replay(chain), n) <==> n in SpentIn(chain)
  {
    hide Apply, Accepts;
    BranchTable(chain, 0);
    assert chain[..0] == [] && chain[0..] == chain;
    assert Replay(chain[..0]) == map[];
  }

  /** No coin is spent twice, and none is spent before it is created, anywhere on a valid chain. */
  lemma NoDoubleSpend(chain: seq<Block>, i: nat, j: nat, n: Name)
    requires ValidChain(chain) && i <= j < |chain|
    requires n in Removals(chain[i]) && n in Removals(chain[j])
    ensures i == j
    ensures n in CreatedIn(chain[..i + 1])
  {
    hide Apply, Accepts, Replay, ValidChain, CreatedIn, SpentIn;
    var upTo := chain[..i + 1];
    ValidPrefix(chain, i + 1);
    TableFromGenesis(upTo);
    SpentInContains(upTo, i, n);
    if i < j {
      var before := chain[..j];
      ValidPrefix(chain, j);
      assert before[..i + 1] == upTo;
      SpentStays(before, i + 1, n);
      AcceptedIsClean(before, chain[j]);
    }
  }

  lemma SpentStays(chain: seq<Block>, k: nat, n: Name)
    requires ValidChain(chain) && k <= |chain| && Spent(Replay(chain[..k]), n)
    ensures Spent(Replay(chain), n)
  {
    BranchTable(chain, k);
  }
}
