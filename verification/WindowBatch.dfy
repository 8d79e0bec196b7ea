/**
 The batched confirmation of a window, on values: where its fast path stands after each block, what
 sealing it leaves, and when its whole log keeps the ledger law.
 */
module WindowBatch {
  import opened Coins
  import opened Archive
  import opened MainChain
  import opened ForkChoice
  import opened LedgerLaw
  import opened BranchWalk
  import opened ChainEngine
  import opened WindowRun
  import opened Confirmation

  lemma ViewPeak(w: World, s: Store, staged: Deltas, pending: Deltas, view: Store)
    requires ShapedView(w, s, staged, pending, view)
    ensures Shaped(w, s) && Shaped(w, view) && view.peak == s.peak && view.main == s.main
    ensures ArchiveGrew(s, view) && Lagging(view, view) == view
  {
    hide Shaped;
    ShapedViewParts(w, s, staged, pending, view);
  }

  lemma HashCount(deltas: seq<BlockDelta>)
    ensures |HashesIn(deltas)| == |deltas|
  {
  }

  lemma StoredAtIndex(w: World, view: Store, deltas: seq<BlockDelta>, k: nat)
    requires k < |deltas| && AllStored(w, view, deltas)
    ensures Stored(w, view, deltas[k]) && |HashesIn(deltas)| == |deltas| && HashesIn(deltas)[k] == deltas[k].hash
  {
    hide DeltaOf;
  }

  lemma InToSet(hs: seq<Hash>, k: nat)
    requires k < |hs|
    ensures hs[k] in ToSet(hs)
  {
  }

  lemma BodiesOf(w: World, view: Store, deltas: seq<BlockDelta>)
    requires AllStored(w, view, deltas)
    ensures var hs := HashesIn(deltas); forall i {:trigger hs[i]} :: 0 <= i < |hs| ==> hs[i] in view.bodies
  {
    hide DeltaOf;
    var hs := HashesIn(deltas);
    assert forall i {:trigger hs[i]} :: 0 <= i < |hs| ==> hs[i] == deltas[i].hash;
  }

  /** The comparison the fast path makes. */
  lemma PlainExtension(w: World, view: Store, cur: Store, d: BlockDelta)
    requires Stored(w, view, d)
    ensures d.weight == w(d.hash).weight && d.height == w(d.hash).height
    ensures cur.peak.Some? ==> (Extends(w, cur, d.hash) && Heavier(w, cur, d.hash) <==>
                                  d.prev == cur.peak.value.hash && d.weight > w(cur.peak.value.hash).weight)
  {
    hide DeltaOf;
    DeltaFields(w(d.hash));
  }

  /** What the fast path changes, as one value. */
  datatype Memory = Memory(store: Store, log: seq<Store>, staged: Deltas, pending: Deltas)

  /** Where the fast path stands after `k` blocks. */
  ghost predicate PrefixHeld(w: World, view: Store, hs: seq<Hash>, k: nat, cur: Store, outcomes: seq<Outcome>, perBlock: bool,
                             carry: Option<Store>, batch: Option<Store>, from: Memory, m: Memory)
  {
    && PrefixRan(w, view, hs, k, cur, outcomes)
    && Carried(batch, m.store) == (if perBlock then cur else Lagging(cur, view))
    && m.store == (if perBlock && k > 0 then cur else from.store)
    && (batch.Some? <==> if k == 0 then carry.Some? else !perBlock)
    && m.log == from.log + (if perBlock then States(w, view, hs[..k]) else [])
    && m.staged == from.staged - ToSet(hs[..k]) && m.pending == from.pending - ToSet(hs[..k])
  }

  lemma PrefixStart(w: World, view: Store, hs: seq<Hash>, perBlock: bool, carry: Option<Store>, from: Memory)
    requires Shaped(w, view) && view == Carried(carry, from.store) && Lagging(view, view) == view
    ensures PrefixHeld(w, view, hs, 0, view, [], perBlock, carry, carry, from, from)
  {
    hide Shaped, PrefixRan, States, ToSet;
    RunStart(w, view, hs);
  }

  /** The next block may be applied. */
  lemma PrefixMove(w: World, view: Store, hs: seq<Hash>, k: nat, cur: Store, outcomes: seq<Outcome>, perBlock: bool,
                   carry: Option<Store>, batch: Option<Store>, from: Memory, m: Memory, d: BlockDelta)
    requires k < |hs| && PrefixHeld(w, view, hs, k, cur, outcomes, perBlock, carry, batch, from, m)
    requires d.hash == hs[k] && Stored(w, view, d) && (cur.peak.None? || (Extends(w, cur, d.hash) && Heavier(w, cur, d.hash)))
    ensures Shaped(w, cur) && Stored(w, cur, d) && d.hash in cur.records
    ensures Carried(batch, m.store) == if perBlock then cur else Lagging(cur, view)
    ensures Land(w, cur, d.hash).peak == Some(Peak(d.hash, w(d.hash).height))
  {
    hide PrefixRan, States, ToSet, Shaped, Land, DeltaOf, Extends, Heavier;
    PrefixStep(w, view, hs, k, cur, outcomes, d);
  }

  lemma MinusMore(ds: Deltas, gone: set<Hash>, h: Hash)
    ensures (ds - gone) - {h} == ds - (gone + {h})
  {
  }

  lemma PrefixHeldStep(w: World, view: Store, hs: seq<Hash>, k: nat, cur: Store, outcomes: seq<Outcome>, perBlock: bool,
                       carry: Option<Store>, batch: Option<Store>, next: Option<Store>, from: Memory, m: Memory, n: Memory,
                       d: BlockDelta)
    requires k < |hs| && d.hash == hs[k] && Stored(w, view, d)
    requires cur.peak.None? || (Extends(w, cur, d.hash) && Heavier(w, cur, d.hash))
    requires PrefixHeld(w, view, hs, k, cur, outcomes, perBlock, carry, batch, from, m)
    requires perBlock ==> next == None && n.store == Land(w, cur, d.hash) && n.log == m.log + [n.store]
    requires !perBlock ==> next == Some(Lagging(Land(w, cur, d.hash), view)) && n.store == m.store && n.log == m.log
    requires n.staged == m.staged - {d.hash} && n.pending == m.pending - {d.hash}
    ensures PrefixHeld(w, view, hs, k + 1, Land(w, cur, d.hash),
                       outcomes + [if cur.peak.None? then NewPeak(d.height) else Extended(d.height)], perBlock, carry, next, from, n)
  {
    hide PrefixRan, States, ToSet, Shaped, Land, DeltaOf, Extends, Heavier, Run, Lagging;
    var done := outcomes + [if cur.peak.None? then NewPeak(d.height) else Extended(d.height)];
    PrefixStep(w, view, hs, k, cur, outcomes, d);
    PrefixRanState(w, view, hs, k + 1, Land(w, cur, d.hash), done);
    StatesStep(w, view, hs, k);
    ToSetStep(hs, k);
    assert n.log == from.log + if perBlock then States(w, view, hs[..k + 1]) else [];
    MinusMore(from.staged, ToSet(hs[..k]), hs[k]);
    MinusMore(from.pending, ToSet(hs[..k]), hs[k]);
  }

  /** What the fast path left open can be sealed. */
  lemma SealReady(w: World, view: Store, hs: seq<Hash>, k: nat, cur: Store, outcomes: seq<Outcome>, perBlock: bool,
                  carry: Option<Store>, batch: Option<Store>, from: Memory, m: Memory)
    requires PrefixHeld(w, view, hs, k, cur, outcomes, perBlock, carry, batch, from, m) && Shaped(w, view)
    requires view == Carried(carry, from.store)
    ensures k <= |hs| && (batch.None? ==> m.store == cur) && (batch.Some? && k == 0 ==> batch.value == cur)
    ensures batch.Some? && k > 0 ==>
              && GoodArchive(w, batch.value) && FlagsAreAncestry(w, batch.value) && hs[k - 1] in batch.value.records
              && PeakWith(w, batch.value, hs[k - 1], batch.value.coins) == cur
    ensures cur == Run(w, view, hs[..k]) && outcomes == RunOutcomes(w, view, hs[..k]) && (forall o :: o in outcomes ==> Linear(o))
  {
    hide States, ToSet, Shaped, Run, RunOutcomes, GoodArchive, FlagsAreAncestry, HashesOf, Tip;
    if k > 0 {
      LaggingCatchesUp(w, view, hs, k, cur, outcomes);
    }
  }

  lemma NoStates(w: World, view: Store)
    ensures States(w, view, []) == []
  {
  }

  lemma SealedLog(w: World, view: Store, hs: seq<Hash>, k: nat, cur: Store, outcomes: seq<Outcome>, perBlock: bool,
                  carry: Option<Store>, batch: Option<Store>, from: Memory, m: Memory)
    requires PrefixHeld(w, view, hs, k, cur, outcomes, perBlock, carry, batch, from, m) && view == Carried(carry, from.store)
    requires from.log != [] && from.log[|from.log| - 1] == from.store
    ensures var log := m.log + if batch.Some? then [cur] else [];
            log == from.log + Commits(w, view, hs[..k], perBlock, carry.Some?) && log != [] && log[|log| - 1] == cur
  {
    hide ToSet, Shaped, Run, RunOutcomes, States;
    assert k == 0 ==> hs[..k] == [];
    if k > 0 {
      assert hs[..k] != [];
      LastCommit(w, view, hs[..k], perBlock, carry.Some?);
    } else {
      assert States(w, view, []) == [] by {
        NoStates(w, view);
      }
    }
  }

  lemma PruneShrinks(ds: Deltas, gone: set<Hash>, height: nat, horizon: nat)
    ensures var less := Prune(ds - gone, height, horizon); forall h :: h in less ==> h in ds && less[h] == ds[h]
  {
  }

  lemma LogShapedJoin(w: World, a: seq<Store>, b: seq<Store>)
    requires LogShaped(w, a) && LogShaped(w, b)
    ensures LogShaped(w, a + b)
  {
    hide Shaped;
  }

  lemma {:induction false} StatesAreShaped(w: World, view: Store, hs: seq<Hash>)
    requires Shaped(w, view) && forall i {:trigger hs[i]} :: 0 <= i < |hs| ==> hs[i] in view.bodies
    ensures LogShaped(w, States(w, view, hs)) && Shaped(w, Run(w, view, hs))
    decreases |hs|
  {
    hide GoodArchive, PeakFlags, Step;
    if hs != [] {
      var n := |hs| - 1;
      StatesAreShaped(w, view, hs[..n]);
      RunKeepsArchive(w, view, hs[..n]);
      assert hs[n] in view.bodies;
      StoredIsLinked(w, Run(w, view, hs[..n]), hs[n]);
      StepIsShaped(w, Run(w, view, hs[..n]), hs[n]);
    }
  }

  lemma CommitsAreShaped(w: World, view: Store, hs: seq<Hash>, k: nat, nearTip: bool, carried: bool)
    requires Shaped(w, view) && k <= |hs| && forall i {:trigger hs[i]} :: 0 <= i < |hs| ==> hs[i] in view.bodies
    ensures LogShaped(w, Commits(w, view, hs[..k], nearTip, carried))
  {
    hide Shaped, Run, States;
    StatesAreShaped(w, view, hs[..k]);
  }

  /** Sealed and pruned, the window's prefix leaves the engine in order, its log grown by the commits. */
  lemma SealEnd(w: World, view: Store, hs: seq<Hash>, k: nat, cur: Store, outcomes: seq<Outcome>, perBlock: bool,
                carry: Option<Store>, batch: Option<Store>, from: Memory, m: Memory, deltas: seq<BlockDelta>, end: Memory,
                height: nat, horizon: nat)
    requires PrefixHeld(w, view, hs, k, cur, outcomes, perBlock, carry, batch, from, m)
    requires ShapedView(w, from.store, from.staged, from.pending, view)
    requires hs == HashesIn(deltas) && AllStored(w, view, deltas) && view == Carried(carry, from.store)
    requires LogShaped(w, from.log) && from.log != [] && from.log[|from.log| - 1] == from.store
    requires end == Memory(cur, m.log + (if batch.Some? then [cur] else []), m.staged, Prune(m.pending, height, horizon))
    ensures end.log == from.log + Commits(w, view, hs[..k], perBlock, carry.Some?)
    ensures ShapedView(w, end.store, end.staged, end.pending, end.store)
    ensures LogShaped(w, end.log) && end.log != [] && end.log[|end.log| - 1] == end.store
    ensures end.staged == from.staged - ToSet(hs[..k])
  {
    hide ToSet, Shaped, Run, RunOutcomes, ShapedView, LogShaped, DeltasAgree, Prune, States, AllStored;
    ShapedViewParts(w, from.store, from.staged, from.pending, view);
    SealedLog(w, view, hs, k, cur, outcomes, perBlock, carry, batch, from, m);
    AgreeShrink(w, from.staged, view, end.staged, cur);
    PruneShrinks(from.pending, ToSet(hs[..k]), height, horizon);
    AgreeShrink(w, from.pending, view, end.pending, cur);
    PrefixRanState(w, view, hs, k, cur, outcomes);
    SelfView(w, cur, end.staged, end.pending);
    BodiesOf(w, view, deltas);
    CommitsAreShaped(w, view, hs, k, perBlock, carry.Some?);
    LogShapedJoin(w, from.log, Commits(w, view, hs[..k], perBlock, carry.Some?));
  }

  lemma NothingNew(w: World, view: Store, hs: seq<Hash>, log: seq<Store>)
    ensures PrefixStates(w, view, hs, log[|log|..])
  {
  }

  lemma FailedAt(w: World, view: Store, hs: seq<Hash>, k: nat)
    requires k < |hs| && NoneFails(w, view, hs, k) && Fails(w, Run(w, view, hs[..k]), hs[k])
    ensures !NoneFails(w, view, hs, |hs|) && FailsFirst(w, view, hs, Run(w, view, hs[..k]))
  {
    hide Fails, Run;
  }

  lemma LastIsGood(w: World, log: seq<Store>)
    requires LogGood(w, log) && log != []
    ensures Vetted(w, log[|log| - 1])
  {
    hide Shaped, Vetted, Replayed;
  }

  /** The law over the log of a window. */
  lemma BatchLaw(w: World, view: Store, hs: seq<Hash>, idx: nat, nearTip: bool, carried: bool, deltas: seq<BlockDelta>,
                 before: seq<Store>, sealed: seq<Store>, log: seq<Store>)
    requires GoodStore(w, view) && LogGood(w, before) && hs == HashesIn(deltas) && AllStored(w, view, deltas) && hs != []
    requires idx <= |hs| && (view.peak.None? ==> idx > 0) && (forall o :: o in RunOutcomes(w, view, hs[..idx]) ==> Linear(o))
    requires sealed == before + Commits(w, view, hs[..idx], nearTip, carried)
    requires before <= log && sealed <= log && log != [] && PrefixStates(w, view, hs, log[|before|..])
    ensures LogGood(w, log) && Vetted(w, log[|log| - 1]) <==> MayStart(w, view, hs[0])
  {
    hide Shaped, Vetted, Replayed, LogGood, Run, RunOutcomes, Commits, PrefixStates, MayStart;
    BodiesOf(w, view, deltas);
    CommitsAreGood(w, view, hs, idx, nearTip, carried);
    LogGrows(w, before, Commits(w, view, hs[..idx], nearTip, carried));
    if MayStart(w, view, hs[0]) {
      StatesAreGood(w, view, hs, log[|before|..]);
      LogGrows(w, before, log[|before|..]);
      assert log == before + log[|before|..];
      LastIsGood(w, log);
    }
    if LogGood(w, log) {
      LogShrinks(w, sealed, log);
    }
  }
}
