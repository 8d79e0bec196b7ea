/**
 Fork choice as a function of the store: what confirming one archived block does, and what a whole
 run of confirmations leaves behind.
 */
module ForkChoice {
  import opened Coins
  import opened CoinTable
  import opened Chain
  import opened Archive
  import opened MainChain

  datatype Outcome =
    | NewPeak(height: nat)
    | Extended(height: nat)
    | Reorg(forkHeight: int, links: int)
    | Orphan(height: nat)
    | AlreadyHave

  ghost predicate Heavier(w: World, s: Store, h: Hash) {
    s.peak.Some? ==> w(h).weight > w(s.peak.value.hash).weight
  }

  ghost predicate Extends(w: World, s: Store, h: Hash) {
    s.peak.Some? && w(h).prev == s.peak.value.hash
  }

  /** Deltas of `blocks` applied to a table in order. */
  ghost function Onto(t: Table, blocks: seq<Block>): Table {
    if blocks == [] then t else Apply(Onto(t, blocks[..|blocks| - 1]), DeltaOf(blocks[|blocks| - 1]))
  }

  /** The store with the flags and the peak of `h`, and the given coin table. */
  ghost function PeakWith(w: World, s: Store, h: Hash, coins: Table): Store {
    s.(main := HashesOf(Tip(w, h)), peak := Some(Peak(h, w(h).height)), coins := coins)
  }

  /** The reference: flags, peak and coin table are those of `h`'s own branch, replayed from genesis. */
  ghost function PeakAt(w: World, s: Store, h: Hash): Store {
    PeakWith(w, s, h, Replay(Tip(w, h)))
  }

  /** A linear step: the block's delta on top of the table as it is. */
  ghost function Land(w: World, s: Store, h: Hash): Store {
    PeakWith(w, s, h, Apply(s.coins, DeltaOf(w(h))))
  }

  /** A reorg: the table rolled back to the fork, and the branch above the fork applied to it. */
  ghost function Switch(w: World, s: Store, h: Hash): Store {
    var f := ForkOf(s.main, Tip(w, h));
    PeakWith(w, s, h, Onto(RollbackTo(s.coins, f), Tip(w, h)[f + 1..]))
  }

  predicate Linear(o: Outcome) {
    o.NewPeak? || o.Extended?
  }

  ghost function Step(w: World, s: Store, h: Hash): Store {
    if !Heavier(w, s, h) then s
    else if s.peak.None? || Extends(w, s, h) then Land(w, s, h)
    else Switch(w, s, h)
  }

  ghost function OutcomeOf(w: World, s: Store, h: Hash): Outcome {
    if s.peak.None? then NewPeak(w(h).height)
    else if !Heavier(w, s, h) then Orphan(w(h).height)
    else if Extends(w, s, h) then Extended(w(h).height)
    else
      var f := ForkOf(s.main, Tip(w, h));
      Reorg(f, w(h).height - f)
  }

  /** The store after confirming `hs` in order. */
  ghost function Run(w: World, s: Store, hs: seq<Hash>): Store {
    if hs == [] then s else Step(w, Run(w, s, hs[..|hs| - 1]), hs[|hs| - 1])
  }

  ghost function RunOutcomes(w: World, s: Store, hs: seq<Hash>): seq<Outcome> {
    if hs == [] then []
    else RunOutcomes(w, s, hs[..|hs| - 1]) + [OutcomeOf(w, Run(w, s, hs[..|hs| - 1]), hs[|hs| - 1])]
  }

  /** Block `i` of the branch of `h` is stored. */
  ghost predicate StoredAt(w: World, s: Store, h: Hash, i: nat)
    requires i <= w(h).height
  {
    Tip(w, h)[i].hash in s.bodies
  }

  /** The branch of `h` meets the main chain, and every body above the fork is stored. */
  ghost predicate Reachable(w: World, s: Store, h: Hash) {
    var f := ForkOf(s.main, Tip(w, h));
    f >= 0 && forall i {:trigger StoredAt(w, s, h, i)} :: f < i <= w(h).height ==> StoredAt(w, s, h, i)
  }

  /** Only a heavier block that does not extend the peak needs its branch replayed. */
  ghost predicate Fails(w: World, s: Store, h: Hash) {
    s.peak.Some? && Heavier(w, s, h) && !Extends(w, s, h) && !Reachable(w, s, h)
  }

  lemma RunAppend(w: World, s: Store, hs: seq<Hash>, h: Hash)
    ensures Run(w, s, hs + [h]) == Step(w, Run(w, s, hs), h)
    ensures RunOutcomes(w, s, hs + [h]) == RunOutcomes(w, s, hs) + [OutcomeOf(w, Run(w, s, hs), h)]
  {
    assert (hs + [h])[..|hs|] == hs;
  }

  /** Archive rows never change during a run. */
  lemma {:induction false} RunKeepsArchive(w: World, s: Store, hs: seq<Hash>)
    ensures Run(w, s, hs).records == s.records && Run(w, s, hs).bodies == s.bodies
    decreases |hs|
  {
    hide Tip;
    if hs != [] {
      RunKeepsArchive(w, s, hs[..|hs| - 1]);
    }
  }

  lemma GoodArchiveDependsOnRows(w: World, s: Store, r: Store)
    requires r.records == s.records && r.bodies == s.bodies
    ensures GoodArchive(w, r) <==> GoodArchive(w, s)
    ensures Vetted(w, r) <==> Vetted(w, s)
  {
    hide ValidChain, Complete, RecordOf;
    forall h
      ensures GoodRows(w, r, h) <==> GoodRows(w, s, h)
      ensures VettedAt(w, r, h) <==> VettedAt(w, s, h)
    {
    }
    if GoodArchive(w, r) {
      assert forall h :: GoodRows(w, r, h);
    }
    if Vetted(w, r) {
      assert forall h :: VettedAt(w, r, h);
    }
  }

  /** Fork choice on an archived block keeps rows and flags in order. */
  lemma StepIsShaped(w: World, s: Store, h: Hash)
    requires Shaped(w, s) && h in s.records
    ensures Shaped(w, Step(w, s, h))
  {
    hide GoodArchive, Tip;
    GoodArchiveDependsOnRows(w, s, Step(w, s, h));
  }

  // ---- Runs of archiving and confirming ---------------------------------------------------------------

  datatype Event = Archived(block: Block) | Confirmed(hash: Hash)

  /** What one event does to the store; a confirmation that fails leaves it alone. */
  ghost function Perform(w: World, s: Store, e: Event): Store {
    match e
    case Archived(b) => Persist(s, b)
    case Confirmed(h) => if Fails(w, s, h) then s else Step(w, s, h)
  }

  ghost function After(w: World, s: Store, events: seq<Event>): Store {
    if events == [] then s else Perform(w, After(w, s, events[..|events| - 1]), events[|events| - 1])
  }

  /** The blocks a run confirmed without failing, in order. */
  ghost function Processed(w: World, s: Store, events: seq<Event>): seq<Hash> {
    if events == [] then []
    else
      var before, e := events[..|events| - 1], events[|events| - 1];
      Processed(w, s, before) +
      if e.Confirmed? && !Fails(w, After(w, s, before), e.hash) then [e.hash] else []
  }

  lemma {:induction false} AfterConcat(w: World, s: Store, a: seq<Event>, b: seq<Event>)
    ensures After(w, s, a + b) == After(w, After(w, s, a), b)
    ensures Processed(w, s, a + b) == Processed(w, s, a) + Processed(w, After(w, s, a), b)
    decreases |b|
  {
    hide Perform, Fails;
    if b == [] {
      assert a + b == a;
      assert Processed(w, s, a) + [] == Processed(w, s, a);
    } else {
      var m := |b| - 1;
      AfterConcat(w, s, a, b[..m]);
      assert (a + b)[..|a + b| - 1] == a + b[..m];
    }
  }

  /** The run that confirms `hs` in order. */
  function Confirms(hs: seq<Hash>): seq<Event> {
    seq(|hs|, i requires 0 <= i < |hs| => Confirmed(hs[i]))
  }

  /** No block of the first `k` fails when the window is confirmed in order. */
  ghost predicate NoneFails(w: World, s: Store, hs: seq<Hash>, k: nat)
    requires k <= |hs|
  {
    forall i {:trigger hs[..i]} :: 0 <= i < k ==> !Fails(w, Run(w, s, hs[..i]), hs[i])
  }

  /** A window without failures is such a run. */
  lemma {:induction false} RunIsAfter(w: World, s: Store, hs: seq<Hash>)
    requires NoneFails(w, s, hs, |hs|)
    ensures After(w, s, Confirms(hs)) == Run(w, s, hs)
    ensures Processed(w, s, Confirms(hs)) == hs
    decreases |hs|
  {
    hide Fails, Step, Run, After, Processed, Perform, Confirms, NoneFails;
    if hs == [] {
      EmptyRun(w, s);
    } else {
      var m := |hs| - 1;
      var init := hs[..m];
      NoneFailsInit(w, s, hs);
      RunIsAfter(w, s, init);
      RunAppend(w, s, init, hs[m]);
      AfterAppend(w, s, Confirms(init), hs[m]);
      ConfirmsAppend(init, hs[m]);
      assert init + [hs[m]] == hs;
    }
  }

  lemma EmptyRun(w: World, s: Store)
    ensures Confirms([]) == [] && After(w, s, []) == Run(w, s, []) && Processed(w, s, []) == []
  {
  }

  lemma NoneFailsInit(w: World, s: Store, hs: seq<Hash>)
    requires hs != [] && NoneFails(w, s, hs, |hs|)
    ensures var m := |hs| - 1; NoneFails(w, s, hs[..m], m) && !Fails(w, Run(w, s, hs[..m]), hs[m])
  {
    hide Fails, Run;
    var init := hs[..|hs| - 1];
    forall i | 0 <= i < |init|
      ensures !Fails(w, Run(w, s, init[..i]), init[i])
    {
      assert init[..i] == hs[..i];
    }
  }

  lemma AfterAppend(w: World, s: Store, events: seq<Event>, h: Hash)
    requires !Fails(w, After(w, s, events), h)
    ensures After(w, s, events + [Confirmed(h)]) == Step(w, After(w, s, events), h)
    ensures Processed(w, s, events + [Confirmed(h)]) == Processed(w, s, events) + [h]
  {
    hide Fails, Step;
    assert (events + [Confirmed(h)])[..|events|] == events;
  }

  lemma ConfirmsAppend(hs: seq<Hash>, h: Hash)
    ensures Confirms(hs + [h]) == Confirms(hs) + [Confirmed(h)]
  {
  }

  /** Block `j` of a run, or for -1 the peak the run started from. */
  ghost function Candidate(s: Store, hs: seq<Hash>, j: int): Hash
    requires -1 <= j < |hs| && (j < 0 ==> s.peak.Some?)
  {
    if j < 0 then s.peak.value.hash else hs[j]
  }

  /** `winner` outweighs every candidate before it, and no candidate after it outweighs it. */
  ghost predicate FirstHeaviest(w: World, s: Store, hs: seq<Hash>, winner: int) {
    && -1 <= winner < |hs| && (winner < 0 ==> s.peak.Some?)
    && (forall i :: (if s.peak.Some? then -1 else 0) <= i < winner ==>
          w(Candidate(s, hs, i)).weight < w(Candidate(s, hs, winner)).weight)
    && (forall i :: winner <= i < |hs| ==> w(Candidate(s, hs, i)).weight <= w(Candidate(s, hs, winner)).weight)
  }

  lemma WinnerStays(w: World, s: Store, hs: seq<Hash>, h: Hash, winner: int)
    requires FirstHeaviest(w, s, hs, winner)
    ensures FirstHeaviest(w, s, hs + [h], if w(h).weight > w(Candidate(s, hs, winner)).weight then |hs| else winner)
  {
    var more := hs + [h];
    assert forall i :: -1 <= i < |hs| && (i < 0 ==> s.peak.Some?) ==> Candidate(s, more, i) == Candidate(s, hs, i);
  }

  /**
   After any run that interleaves archiving with confirming, from any store, the peak is the first
   heaviest of the blocks confirmed without failing and the peak the run started from.
   */
  lemma {:induction false} PeakIsFirstHeaviest(w: World, s: Store, events: seq<Event>) returns (winner: int)
    requires s.peak.Some? || Processed(w, s, events) != []
    ensures FirstHeaviest(w, s, Processed(w, s, events), winner)
    ensures After(w, s, events).peak.Some?
    ensures After(w, s, events).peak.value.hash == Candidate(s, Processed(w, s, events), winner)
    decreases |events|
  {
    hide Tip, FirstHeaviest, Fails, Extends, RollbackTo, Apply, HashesOf;
    if events == [] {
      winner := -1;
      OnlyThePeak(w, s);
    } else {
      var before, e := events[..|events| - 1], events[|events| - 1];
      var hs, t := Processed(w, s, before), After(w, s, before);
      if s.peak.None? && hs == [] {
        NothingProcessed(w, s, before);
        winner := 0;
        OnlyOne(w, s, e.hash);
        assert [] + [e.hash] == [e.hash];
      } else {
        winner := PeakIsFirstHeaviest(w, s, before);
        if e.Confirmed? && !Fails(w, t, e.hash) {
          WinnerInRange(w, s, hs, winner);
          WinnerStays(w, s, hs, e.hash, winner);
          if w(e.hash).weight > w(Candidate(s, hs, winner)).weight {
            winner := |hs|;
          }
        } else {
          assert hs + [] == hs;
        }
      }
    }
  }

  lemma WinnerInRange(w: World, s: Store, hs: seq<Hash>, winner: int)
    requires FirstHeaviest(w, s, hs, winner)
    ensures -1 <= winner < |hs| && (winner < 0 ==> s.peak.Some?)
  {
  }

  lemma OnlyThePeak(w: World, s: Store)
    requires s.peak.Some?
    ensures FirstHeaviest(w, s, [], -1)
  {
  }

  lemma OnlyOne(w: World, s: Store, h: Hash)
    requires s.peak.None?
    ensures FirstHeaviest(w, s, [h], 0)
  {
  }

  lemma {:induction false} NothingProcessed(w: World, s: Store, events: seq<Event>)
    requires s.peak.None? && Processed(w, s, events) == []
    ensures After(w, s, events).peak.None?
    decreases |events|
  {
    hide Fails, Step;
    if events != [] {
      NothingProcessed(w, s, events[..|events| - 1]);
    }
  }
}
