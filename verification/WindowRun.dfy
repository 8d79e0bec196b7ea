/**
 A staged window confirmed in order, on store values: its outcomes, the states it goes through, the
 states a batched confirmation commits, and when all of them keep the ledger law.
 */
module WindowRun {
  import opened Coins
  import opened CoinTable
  import opened Chain
  import opened Archive
  import opened MainChain
  import opened ForkChoice
  import opened LedgerLaw
  import opened BranchWalk
  import opened ChainEngine

  /** The state a batch continues from: the carried rows, or the durable store. */
  function Carried(carry: Option<Store>, s: Store): Store {
    if carry.Some? then carry.value else s
  }

  ghost predicate AllStored(w: World, s: Store, deltas: seq<BlockDelta>) {
    forall i {:trigger deltas[i]} :: 0 <= i < |deltas| ==> Stored(w, s, deltas[i])
  }

  lemma StoredThere(w: World, s: Store, t: Store, deltas: seq<BlockDelta>)
    requires AllStored(w, s, deltas) && t.bodies == s.bodies
    ensures AllStored(w, t, deltas)
  {
    hide DeltaOf;
  }

  /** The coin table of `cur` with the flags and the peak not flipped yet. */
  ghost function Lagging(cur: Store, view: Store): Store {
    cur.(main := view.main, peak := view.peak)
  }

  // ---- Failures -----------------------------------------------------------------------------------------

  /** Some block fails, and the store stopped just before it. */
  ghost predicate FailsFirst(w: World, s: Store, hs: seq<Hash>, stopped: Store) {
    exists i {:trigger hs[..i]} :: && 0 <= i < |hs| && NoneFails(w, s, hs, i) && Fails(w, Run(w, s, hs[..i]), hs[i])
                                   && stopped == Run(w, s, hs[..i])
  }

  lemma {:induction false} OutcomeAt(w: World, s: Store, hs: seq<Hash>, i: nat)
    requires i < |hs|
    ensures |RunOutcomes(w, s, hs)| == |hs| && RunOutcomes(w, s, hs)[i] == OutcomeOf(w, Run(w, s, hs[..i]), hs[i])
    decreases |hs|
  {
    hide OutcomeOf, Run;
    var m := |hs| - 1;
    if m == 0 {
      assert hs[..0] == [];
    } else if i < m {
      OutcomeAt(w, s, hs[..m], i);
      assert hs[..m][..i] == hs[..i];
    } else {
      OutcomeAt(w, s, hs[..m], 0);
    }
  }

  lemma LinearNeverFails(w: World, s: Store, h: Hash)
    requires Linear(OutcomeOf(w, s, h))
    ensures !Fails(w, s, h)
  {
    hide Tip, ForkOf, Reachable;
  }

  lemma PrefixNeverFails(w: World, s: Store, hs: seq<Hash>, k: nat)
    requires k <= |hs| && forall o :: o in RunOutcomes(w, s, hs[..k]) ==> Linear(o)
    ensures NoneFails(w, s, hs, k)
  {
    hide RunOutcomes, OutcomeOf, Run, Fails;
    forall i | 0 <= i < k
      ensures !Fails(w, Run(w, s, hs[..i]), hs[i])
    {
      OutcomeAt(w, s, hs[..k], i);
      assert hs[..k][..i] == hs[..i];
      LinearNeverFails(w, Run(w, s, hs[..i]), hs[i]);
    }
  }

  // ---- States on the way -----------------------------------------------------------------------------------

  ghost predicate PrefixState(w: World, s: Store, hs: seq<Hash>, state: Store) {
    exists i {:trigger hs[..i]} :: 0 <= i <= |hs| && NoneFails(w, s, hs, i) && state == Run(w, s, hs[..i])
  }

  /** Every state is the one after some prefix of the window that was confirmed without failing. */
  ghost predicate PrefixStates(w: World, s: Store, hs: seq<Hash>, states: seq<Store>) {
    forall j {:trigger states[j]} :: 0 <= j < |states| ==> PrefixState(w, s, hs, states[j])
  }

  lemma PrefixStatesJoin(w: World, s: Store, hs: seq<Hash>, start: seq<Store>, mid: seq<Store>, end: seq<Store>)
    requires start <= mid <= end
    requires PrefixStates(w, s, hs, mid[|start|..]) && PrefixStates(w, s, hs, end[|mid|..])
    ensures PrefixStates(w, s, hs, end[|start|..])
  {
    hide PrefixState;
    var states := end[|start|..];
    forall j | 0 <= j < |states|
      ensures PrefixState(w, s, hs, states[j])
    {
      if |start| + j < |mid| {
        assert states[j] == mid[|start|..][j];
      } else {
        assert states[j] == end[|mid|..][|start| + j - |mid|];
      }
    }
  }

  /** The states after each block of a run. */
  ghost function States(w: World, s: Store, hs: seq<Hash>): seq<Store> {
    if hs == [] then [] else States(w, s, hs[..|hs| - 1]) + [Run(w, s, hs)]
  }

  /** The durable states a linear prefix commits: each block's near the tip, else only the last. */
  ghost function Commits(w: World, s: Store, hs: seq<Hash>, nearTip: bool, carried: bool): seq<Store> {
    if hs == [] then if carried then [s] else []
    else if nearTip then States(w, s, hs)
    else [Run(w, s, hs)]
  }

  lemma StatesStep(w: World, view: Store, hs: seq<Hash>, k: nat)
    requires k < |hs|
    ensures States(w, view, hs[..k + 1]) == States(w, view, hs[..k]) + [Run(w, view, hs[..k + 1])]
  {
    hide Run;
    assert hs[..k + 1][..k] == hs[..k];
  }

  lemma {:induction false} StatesArePrefixes(w: World, s: Store, hs: seq<Hash>, k: nat)
    requires k <= |hs| && NoneFails(w, s, hs, k)
    ensures PrefixStates(w, s, hs, States(w, s, hs[..k]))
    decreases k
  {
    hide Run, Fails;
    if k > 0 {
      StatesArePrefixes(w, s, hs, k - 1);
      StatesStep(w, s, hs, k - 1);
      assert PrefixState(w, s, hs, Run(w, s, hs[..k]));
    }
  }

  lemma CommitsArePrefixes(w: World, s: Store, hs: seq<Hash>, k: nat, nearTip: bool, carried: bool)
    requires k <= |hs| && NoneFails(w, s, hs, k)
    ensures PrefixStates(w, s, hs, Commits(w, s, hs[..k], nearTip, carried))
  {
    hide States, Fails;
    StatesArePrefixes(w, s, hs, k);
    assert PrefixState(w, s, hs, Run(w, s, hs[..k]));
    assert Run(w, s, hs[..0]) == s;
  }

  /** What confirming block `k` in order means for the run. */
  lemma EachStep(w: World, view: Store, hs: seq<Hash>, k: nat, s: Store)
    requires k < |hs| && s == Run(w, view, hs[..k]) && s.peak.Some?
    ensures Run(w, view, hs[..k + 1]) == Step(w, s, hs[k])
    ensures RunOutcomes(w, view, hs[..k + 1]) == RunOutcomes(w, view, hs[..k]) + [OutcomeOf(w, s, hs[k])]
    ensures Step(w, s, hs[k]).peak.Some? && Step(w, s, hs[k]).bodies == s.bodies
  {
    hide Tip, HashesOf, Apply, Onto, RollbackTo, Run, RunOutcomes, OutcomeOf;
    RunAppend(w, view, hs[..k], hs[k]);
    assert hs[..k] + [hs[k]] == hs[..k + 1];
  }

  lemma NoneFailsStep(w: World, s: Store, hs: seq<Hash>, k: nat)
    requires k < |hs| && NoneFails(w, s, hs, k) && !Fails(w, Run(w, s, hs[..k]), hs[k])
    ensures NoneFails(w, s, hs, k + 1)
  {
    hide Run, Fails;
  }

  /** The sequential confirmation of block `k` adds only the states around it. */
  lemma TailStates(w: World, s: Store, hs: seq<Hash>, k: nat, start: seq<Store>, before: seq<Store>, after: seq<Store>, now: Store)
    requires k < |hs| && start <= before < after && PrefixStates(w, s, hs, before[|start|..]) && NoneFails(w, s, hs, k)
    requires now == Run(w, s, hs[..k]) || (now == Run(w, s, hs[..k + 1]) && NoneFails(w, s, hs, k + 1))
    requires forall i :: |before| <= i < |after| ==> after[i] == Run(w, s, hs[..k]) || after[i] == now
    ensures start <= after && PrefixStates(w, s, hs, after[|start|..])
  {
    hide Run, NoneFails;
    assert PrefixState(w, s, hs, Run(w, s, hs[..k])) && PrefixState(w, s, hs, now);
    hide PrefixState;
    var states := after[|start|..];
    forall j | 0 <= j < |states|
      ensures PrefixState(w, s, hs, states[j])
    {
      if |start| + j < |before| {
        assert states[j] == before[|start|..][j];
      }
    }
  }

  // ---- The linear prefix ------------------------------------------------------------------------------------

  ghost predicate PrefixRan(w: World, view: Store, hs: seq<Hash>, k: nat, cur: Store, outcomes: seq<Outcome>) {
    && k <= |hs| && Shaped(w, cur)
    && cur == Run(w, view, hs[..k]) && cur.records == view.records && cur.bodies == view.bodies
    && outcomes == RunOutcomes(w, view, hs[..k]) && (forall o :: o in outcomes ==> Linear(o))
    && (k > 0 ==> cur == PeakWith(w, cur, hs[k - 1], cur.coins))
    && (k == 0 ==> cur == view)
  }

  lemma RunStart(w: World, view: Store, hs: seq<Hash>)
    requires Shaped(w, view)
    ensures PrefixRan(w, view, hs, 0, view, [])
    ensures ToSet(hs[..0]) == {} && States(w, view, hs[..0]) == []
  {
    hide Shaped;
    assert hs[..0] == [];
  }

  /** One linear step: the outcome, and the store it gives. */
  lemma LinearStep(w: World, cur: Store, d: BlockDelta)
    requires Shaped(w, cur) && Stored(w, cur, d)
    requires cur.peak.None? || (Extends(w, cur, d.hash) && Heavier(w, cur, d.hash))
    ensures d.hash in cur.records && Shaped(w, Land(w, cur, d.hash))
    ensures Step(w, cur, d.hash) == Land(w, cur, d.hash)
    ensures OutcomeOf(w, cur, d.hash) == if cur.peak.None? then NewPeak(d.height) else Extended(d.height)
  {
    hide Tip, Apply, HashesOf, PeakFlags, RecordOf;
    DeltaFields(w(d.hash));
    StoredIsLinked(w, cur, d.hash);
    LandIsShaped(w, cur, d.hash);
  }

  lemma PrefixStep(w: World, view: Store, hs: seq<Hash>, k: nat, cur: Store, outcomes: seq<Outcome>, d: BlockDelta)
    requires k < |hs| && PrefixRan(w, view, hs, k, cur, outcomes) && d.hash == hs[k] && Stored(w, view, d)
    requires cur.peak.None? || (Extends(w, cur, d.hash) && Heavier(w, cur, d.hash))
    ensures Stored(w, cur, d) && Shaped(w, cur) && d.hash in cur.records
    ensures Land(w, cur, d.hash).peak == Some(Peak(d.hash, w(d.hash).height))
    ensures PrefixRan(w, view, hs, k + 1, Land(w, cur, d.hash),
                      outcomes + [if cur.peak.None? then NewPeak(d.height) else Extended(d.height)])
  {
    hide Shaped, Tip, DeltaOf, Apply, Run, RunOutcomes, OutcomeOf, Step, HashesOf, Extends, Heavier;
    LinearStep(w, cur, d);
    RunAppend(w, view, hs[..k], d.hash);
    assert hs[..k] + [d.hash] == hs[..k + 1];
  }

  lemma NotLinear(w: World, s: Store, h: Hash)
    requires s.peak.Some? && !(Extends(w, s, h) && Heavier(w, s, h))
    ensures !Linear(OutcomeOf(w, s, h))
  {
    hide Tip, ForkOf;
  }

  lemma PrefixRanState(w: World, view: Store, hs: seq<Hash>, k: nat, cur: Store, outcomes: seq<Outcome>)
    requires PrefixRan(w, view, hs, k, cur, outcomes)
    ensures Shaped(w, cur) && cur == Run(w, view, hs[..k])
  {
    hide Shaped, Run, RunOutcomes;
  }

  /** A batch whose flags lag behind its coins catches up with one flip to the last block. */
  lemma LaggingCatchesUp(w: World, view: Store, hs: seq<Hash>, k: nat, cur: Store, outcomes: seq<Outcome>)
    requires 0 < k && PrefixRan(w, view, hs, k, cur, outcomes) && Shaped(w, view)
    ensures GoodArchive(w, Lagging(cur, view)) && FlagsAreAncestry(w, Lagging(cur, view)) && hs[k - 1] in view.records
    ensures PeakWith(w, Lagging(cur, view), hs[k - 1], cur.coins) == cur
  {
    hide Run, RunOutcomes, OutcomeOf, GoodRows;
    GoodArchiveDependsOnRows(w, view, Lagging(cur, view));
    GoodFlags(w, view);
  }

  lemma ToSetStep(hs: seq<Hash>, k: nat)
    requires k < |hs|
    ensures ToSet(hs[..k + 1]) == ToSet(hs[..k]) + {hs[k]}
  {
    assert hs[..k + 1] == hs[..k] + [hs[k]];
  }

  // ---- The ledger law over a window -------------------------------------------------------------------------

  /** The window may start here: there is a peak, or its first block is fit to be first. */
  ghost predicate MayStart(w: World, s: Store, h: Hash) {
    s.peak.Some? || First(w, s, h)
  }

  /** From a good start every state of the window is good. */
  lemma {:induction false} RunIsGood(w: World, s: Store, hs: seq<Hash>, k: nat)
    requires GoodStore(w, s) && k <= |hs| && NoneFails(w, s, hs, k)
    requires forall i {:trigger hs[i]} :: 0 <= i < |hs| ==> hs[i] in s.bodies
    requires hs != [] ==> MayStart(w, s, hs[0])
    ensures GoodStore(w, Run(w, s, hs[..k])) && (k > 0 ==> Run(w, s, hs[..k]).peak.Some?)
    decreases k
  {
    hide GoodStore, Fails, Step, First;
    if k > 0 {
      RunIsGood(w, s, hs, k - 1);
      RunKeepsArchive(w, s, hs[..k - 1]);
      RunAppend(w, s, hs[..k - 1], hs[k - 1]);
      assert hs[..k - 1] + [hs[k - 1]] == hs[..k];
      assert hs[..0] == [];
      hide MayStart;
      OneGoodStep(w, Run(w, s, hs[..k - 1]), hs[k - 1], s, hs[0], k - 1);
    } else {
      assert hs[..0] == [];
    }
  }

  lemma OneGoodStep(w: World, t: Store, h: Hash, s: Store, h0: Hash, k: nat)
    requires GoodStore(w, t) && h in t.bodies && !Fails(w, t, h)
    requires if k == 0 then t == s && h == h0 && MayStart(w, s, h0) else t.peak.Some?
    ensures GoodStore(w, Step(w, t, h)) && Step(w, t, h).peak.Some?
  {
    hide GoodStore, Fails, First, Tip, Apply, Onto, RollbackTo, HashesOf;
    StepReplays(w, t, h);
  }

  lemma StatesAreGood(w: World, s: Store, hs: seq<Hash>, states: seq<Store>)
    requires GoodStore(w, s) && PrefixStates(w, s, hs, states)
    requires forall i {:trigger hs[i]} :: 0 <= i < |hs| ==> hs[i] in s.bodies
    requires hs != [] ==> MayStart(w, s, hs[0])
    ensures forall j {:trigger states[j]} :: 0 <= j < |states| ==> GoodStore(w, states[j])
  {
    hide GoodStore, NoneFails, MayStart, Run;
    forall j | 0 <= j < |states|
      ensures GoodStore(w, states[j])
    {
      assert PrefixState(w, s, hs, states[j]);
      var i :| 0 <= i <= |hs| && NoneFails(w, s, hs, i) && states[j] == Run(w, s, hs[..i]);
      RunIsGood(w, s, hs, i);
    }
  }

  /** From an unfit start every state of the linear prefix lacks a coin of its branch. */
  lemma {:induction false} RunIsUnpaid(w: World, s: Store, hs: seq<Hash>, k: nat)
    requires GoodStore(w, s) && s.peak.None? && 0 < k <= |hs| && !First(w, s, hs[0])
    requires forall i {:trigger hs[i]} :: 0 <= i < |hs| ==> hs[i] in s.bodies
    requires forall o :: o in RunOutcomes(w, s, hs[..k]) ==> Linear(o)
    ensures var t := Run(w, s, hs[..k]); Unpaid(w, t) && Shaped(w, t) && Vetted(w, t)
    decreases k
  {
    hide GoodStore, First, Unpaid, RunOutcomes, OutcomeOf, Step, Shaped, Vetted;
    OutcomeAt(w, s, hs[..k], k - 1);
    assert hs[..k][..k - 1] == hs[..k - 1];
    RunAppend(w, s, hs[..k - 1], hs[k - 1]);
    assert hs[..k - 1] + [hs[k - 1]] == hs[..k];
    if k == 1 {
      assert hs[..0] == [];
      UnfitStart(w, s, hs[0]);
    } else {
      RunOutcomesPrefix(w, s, hs, k);
      RunIsUnpaid(w, s, hs, k - 1);
      RunKeepsArchive(w, s, hs[..k - 1]);
      UnpaidStep(w, Run(w, s, hs[..k - 1]), hs[k - 1]);
    }
  }

  lemma RunOutcomesPrefix(w: World, s: Store, hs: seq<Hash>, k: nat)
    requires 0 < k <= |hs|
    ensures forall o :: o in RunOutcomes(w, s, hs[..k - 1]) ==> o in RunOutcomes(w, s, hs[..k])
  {
    hide OutcomeOf, Run;
    assert hs[..k][..k - 1] == hs[..k - 1];
  }

  lemma UnfitStart(w: World, s: Store, h: Hash)
    requires GoodStore(w, s) && s.peak.None? && h in s.bodies && !First(w, s, h)
    ensures var t := Step(w, s, h); Unpaid(w, t) && Shaped(w, t) && Vetted(w, t)
  {
    hide First, Unpaid, Land, GoodArchive, Vetted;
    UnfitIsUnpaid(w, s, h);
    StoredIsLinked(w, s, h);
    LandIsShaped(w, s, h);
  }

  lemma UnpaidStep(w: World, s: Store, h: Hash)
    requires Unpaid(w, s) && Shaped(w, s) && Vetted(w, s) && h in s.bodies && Linear(OutcomeOf(w, s, h))
    ensures var t := Step(w, s, h); Unpaid(w, t) && Shaped(w, t) && Vetted(w, t)
  {
    hide Land, GoodArchive, Vetted, Complete, Replay, Tip, ForkOf;
    UnpaidStays(w, s, h);
    StoredIsLinked(w, s, h);
    LandIsShaped(w, s, h);
  }

  /** The commits of a linear prefix are all good exactly when the window may start. */
  lemma CommitsAreGood(w: World, s: Store, hs: seq<Hash>, k: nat, nearTip: bool, carried: bool)
    requires GoodStore(w, s) && k <= |hs| && (s.peak.None? && hs != [] ==> k > 0)
    requires forall i {:trigger hs[i]} :: 0 <= i < |hs| ==> hs[i] in s.bodies
    requires forall o :: o in RunOutcomes(w, s, hs[..k]) ==> Linear(o)
    ensures hs != [] ==>
              ((forall j {:trigger Commits(w, s, hs[..k], nearTip, carried)[j]} ::
                  0 <= j < |Commits(w, s, hs[..k], nearTip, carried)| ==> GoodStore(w, Commits(w, s, hs[..k], nearTip, carried)[j]))
               <==> MayStart(w, s, hs[0]))
  {
    hide GoodStore, Run, RunOutcomes, First, PrefixStates;
    if hs != [] {
      PrefixNeverFails(w, s, hs, k);
      CommitsArePrefixes(w, s, hs, k, nearTip, carried);
      var commits := Commits(w, s, hs[..k], nearTip, carried);
      if MayStart(w, s, hs[0]) {
        StatesAreGood(w, s, hs, commits);
      } else {
        RunIsUnpaid(w, s, hs, k);
        LastCommit(w, s, hs[..k], nearTip, carried);
        UnpaidIsBad(w, commits[|commits| - 1]);
      }
    }
  }

  lemma LastCommit(w: World, s: Store, hs: seq<Hash>, nearTip: bool, carried: bool)
    requires hs != []
    ensures var commits := Commits(w, s, hs, nearTip, carried);
            commits != [] && commits[|commits| - 1] == Run(w, s, hs)
  {
  }

  lemma UnpaidIsBad(w: World, s: Store)
    requires Unpaid(w, s)
    ensures !GoodStore(w, s)
  {
    UnpaidIsNotReplayed(w, s);
  }
}
