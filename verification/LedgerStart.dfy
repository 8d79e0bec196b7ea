/**
 Where a chain started. On an empty chain any archived block may be confirmed first, and only the
 coins of the blocks from there on are in the table. Extensions keep that height, a reorg lowers it to
 just above its fork, and the table is the replay exactly when no transaction block lies between
 genesis and it.
 */
module LedgerStart {
  import opened Coins
  import opened CoinTable
  import opened Chain
  import opened Ledger
  import opened Archive
  import opened MainChain
  import opened ForkChoice
  import opened LedgerLaw
  import opened BodyRules
  import opened ChainEngine

  // ---- The coins of the upper part of a chain ------------------------------------------------------------

  /** The rows born at a height or above it. */
  function Recent(t: Table, a: nat): Table {
    map n | n in t && t[n].confirmed >= a :: t[n]
  }

  /** The blocks of a chain from height `a` on, applied to an empty table. */
  ghost function Since(chain: seq<Block>, a: nat): Table
    requires a <= |chain|
  {
    Onto(map[], chain[a..])
  }

  ghost predicate Upright(chain: seq<Block>) {
    forall i {:trigger chain[i]} :: 0 <= i < |chain| ==> chain[i].height == i
  }

  lemma {:induction false} RecentInsert(t: Table, adds: seq<CoinRecord>, height: nat, timestamp: nat, a: nat)
    requires height >= a
    ensures Recent(InsertAll(t, adds, height, timestamp), a) == InsertAll(Recent(t, a), adds, height, timestamp)
    decreases |adds|
  {
    if adds != [] {
      RecentInsert(t, adds[..|adds| - 1], height, timestamp, a);
    }
  }

  lemma {:induction false} RecentSpend(t: Table, rems: seq<Name>, height: nat, a: nat)
    ensures Recent(SpendAll(t, rems, height), a) == SpendAll(Recent(t, a), rems, height)
    decreases |rems|
  {
    if rems != [] {
      RecentSpend(t, rems[..|rems| - 1], height, a);
    }
  }

  /** A block at or above the height treats the recent rows as it treats the whole table. */
  lemma RecentApply(t: Table, d: BlockDelta, a: nat)
    requires d.height >= a
    ensures Recent(Apply(t, d), a) == Apply(Recent(t, a), d)
  {
    hide InsertAll, SpendAll, Recent;
    RecentInsert(t, d.additions, d.height, d.timestamp, a);
    RecentSpend(InsertAll(t, d.additions, d.height, d.timestamp), d.removals, d.height, a);
  }

  lemma {:induction false} BornBelow(chain: seq<Block>)
    requires Upright(chain)
    ensures forall n :: n in Replay(chain) ==> Replay(chain)[n].confirmed < |chain|
    decreases |chain|
  {
    hide Apply;
    if chain != [] {
      var m := |chain| - 1;
      BornBelow(chain[..m]);
      ApplyAt(Replay(chain[..m]), DeltaOf(chain[m]));
    }
  }

  /** What the upper part of a chain leaves on an empty table are the recent rows of the whole chain's. */
  lemma {:induction false} SinceIsRecent(chain: seq<Block>, a: nat)
    requires Upright(chain) && a <= |chain|
    ensures Since(chain, a) == Recent(Replay(chain), a)
    decreases |chain|
  {
    hide Apply, DeltaOf;
    if a == |chain| {
      BornBelow(chain);
    } else {
      var m := |chain| - 1;
      SinceIsRecent(chain[..m], a);
      assert chain[..m][a..] == chain[a..][..m - a];
      DeltaHeight(chain[m]);
      RecentApply(Replay(chain[..m]), DeltaOf(chain[m]), a);
    }
  }

  lemma DeltaHeight(b: Block)
    ensures DeltaOf(b).height == b.height
  {
  }

  lemma {:induction false} OntoJoins(t: Table, a: seq<Block>, b: seq<Block>)
    ensures Onto(t, a + b) == Onto(Onto(t, a), b)
    decreases |b|
  {
    hide Apply, DeltaOf;
    if b == [] {
      assert a + b == a;
    } else {
      var m := |b| - 1;
      OntoJoins(t, a, b[..m]);
      assert (a + b)[..|a + b| - 1] == a + b[..m];
    }
  }

  /** Applying the rest of a chain continues what was applied of it. */
  lemma SinceContinues(chain: seq<Block>, a: nat, k: nat)
    requires a <= k <= |chain|
    ensures Since(chain, a) == Onto(Since(chain[..k], a), chain[k..])
  {
    hide Onto;
    OntoJoins(map[], chain[..k][a..], chain[k..]);
    assert chain[..k][a..] + chain[k..] == chain[a..];
  }

  lemma {:induction false} PlainSince(t: Table, blocks: seq<Block>)
    requires forall i {:trigger blocks[i]} :: 0 <= i < |blocks| ==> !blocks[i].IsTx()
    ensures Onto(t, blocks) == t
    decreases |blocks|
  {
    hide Apply, DeltaOf;
    if blocks != [] {
      var m := |blocks| - 1;
      PlainSince(t, blocks[..m]);
      DeltaOfPlain(blocks[m], t);
    }
  }

  lemma RollbackRecent(t: Table, a: nat, f: int)
    ensures RollbackTo(Recent(t, a), f) == Recent(RollbackTo(t, f), a)
  {
  }

  // ---- The start of a store's chain ---------------------------------------------------------------------------

  /** The table holds the peak's branch from height `a` on, and the bodies of that part are stored. */
  ghost predicate StartedAt(w: World, s: Store, a: nat) {
    && s.peak.Some? && var p := s.peak.value.hash;
    && a <= w(p).height && s.coins == Since(Tip(w, p), a)
    && (forall i {:trigger StoredAt(w, s, p, i)} :: a <= i <= w(p).height ==> StoredAt(w, s, p, i))
  }

  lemma TipIsUpright(w: World, s: Store, h: Hash)
    requires GoodArchive(w, s) && h in s.records
    ensures Upright(Tip(w, h)) && |Tip(w, h)| == w(h).height + 1
  {
    hide GoodRows;
    forall i | 0 <= i < |Tip(w, h)|
      ensures Tip(w, h)[i].height == i
    {
      BranchAt(w, s.records.Keys, h, i);
    }
  }

  /** Either no transaction block stands at or above the start, or the whole branch is stored and valid. */
  lemma StartIsPlainOrValid(w: World, s: Store, a: nat)
    requires Shaped(w, s) && Vetted(w, s) && StartedAt(w, s, a)
    ensures var p := s.peak.value.hash;
            || (Complete(w, s.bodies.Keys, p, w(p).height) && ValidChain(Tip(w, p)))
            || (LastTx(Tip(w, p)) < a && s.coins == map[])
  {
    hide Replay, ValidChain, GoodRows, StoredAt;
    var p := s.peak.value.hash;
    var top, j := Tip(w, p), LastTx(Tip(w, p));
    if j >= a {
      BranchAt(w, s.records.Keys, p, j);
      assert StoredAt(w, s, p, j);
      StoredTx(w, s, p, j);
      CompleteUp(w, s, p, j, w(p).height);
      StartOfWalk(w, s, p);
      CompleteIsValid(w, s, p);
    } else {
      PlainSince(map[], top[a..]);
    }
  }

  lemma StoredTx(w: World, s: Store, p: Hash, j: nat)
    requires GoodArchive(w, s) && Vetted(w, s) && p in s.records && j <= w(p).height && StoredAt(w, s, p, j) && Tip(w, p)[j].IsTx()
    ensures Complete(w, s.bodies.Keys, Tip(w, p)[j].hash, j)
  {
    hide ValidChain, Tip, GoodRows;
    BranchAt(w, s.records.Keys, p, j);
    assert VettedAt(w, s, Tip(w, p)[j].hash);
  }

  /** The ledger law, by the start: the branch is stored, and no transaction block lies between genesis and the start. */
  lemma StartDecides(w: World, s: Store, a: nat)
    requires Shaped(w, s) && Vetted(w, s) && StartedAt(w, s, a)
    ensures var p := s.peak.value.hash;
            Replayed(w, s) <==> Complete(w, s.bodies.Keys, p, w(p).height) && LastTx(Tip(w, p)[..a]) <= 0
  {
    hide Replay, ValidChain, Tip, GoodArchive, Vetted, PeakFlags, Since, Recent, StoredAt;
    var p := s.peak.value.hash;
    var top := Tip(w, p);
    PeakIsRecorded(w, s);
    if Complete(w, s.bodies.Keys, p, w(p).height) {
      CompleteIsValid(w, s, p);
      TipIsUpright(w, s, p);
      SinceIsRecent(top, a);
      RecentIsAll(top, a);
    }
  }

  lemma PeakIsRecorded(w: World, s: Store)
    requires Shaped(w, s) && s.peak.Some?
    ensures s.peak.value.hash in s.records
  {
  }

  /** All rows of a valid chain are recent exactly when it had created none before. */
  lemma RecentIsAll(chain: seq<Block>, a: nat)
    requires ValidChain(chain) && Upright(chain) && a <= |chain|
    ensures Recent(Replay(chain), a) == Replay(chain) <==> LastTx(chain[..a]) <= 0
  {
    hide Replay, ValidChain, LastTx;
    var t := Replay(chain);
    RollbackUndoesSuffix(chain, a - 1);
    ValidPrefix(chain, a);
    EmptyUntilSecond(chain[..a]);
    assert RollbackTo(t, a - 1) == Replay(chain[..a]);
    if Recent(t, a) == t {
      assert forall n :: n in t ==> n in Recent(t, a);
      assert Replay(chain[..a]) == map[];
    }
    if Replay(chain[..a]) == map[] {
      forall n | n in t
        ensures n in Recent(t, a)
      {
        assert n !in RollbackTo(t, a - 1);
      }
    }
  }

  // ---- Steps ------------------------------------------------------------------------------------------------------

  /** A store that keeps the ledger law started at genesis. */
  lemma ReplayedIsFromGenesis(w: World, s: Store)
    requires GoodStore(w, s) && s.peak.Some?
    ensures StartedAt(w, s, 0)
  {
    hide ValidChain, GoodRows, StoredAt, Tip;
    var p := s.peak.value.hash;
    OntoReplays(Tip(w, p), 0);
    EmptyReplay();
    assert Tip(w, p)[..0] == [];
    forall i | 0 <= i <= w(p).height
      ensures StoredAt(w, s, p, i)
    {
      CompleteDown(w, s, p, i);
    }
  }

  /** The first block confirmed is where the chain starts. */
  lemma FirstStarts(w: World, s: Store, h: Hash)
    requires Shaped(w, s) && s.peak.None? && s.coins == map[] && h in s.bodies
    ensures StartedAt(w, Land(w, s, h), w(h).height)
  {
    hide Apply, DeltaOf, GoodRows;
    StoredIsLinked(w, s, h);
    var top, a := Tip(w, h), w(h).height;
    assert top[a..] == [w(h)] && [w(h)][..0] == [];
    assert Onto(map[], [w(h)]) == Apply(map[], DeltaOf(w(h)));
  }

  /** An extension keeps the start. */
  lemma ExtensionKeepsStart(w: World, s: Store, h: Hash, a: nat)
    requires Shaped(w, s) && StartedAt(w, s, a) && h in s.bodies && Extends(w, s, h)
    ensures StartedAt(w, Land(w, s, h), a)
  {
    hide Apply, DeltaOf, GoodRows, Tip;
    var p := s.peak.value.hash;
    StoredIsLinked(w, s, h);
    TipGrows(w, s, h);
    var top, chain := Tip(w, p), Tip(w, h);
    assert chain[a..] == top[a..] + [w(h)];
    assert (top[a..] + [w(h)])[..|top[a..]|] == top[a..];
    forall i | a <= i <= w(h).height
      ensures StoredAt(w, Land(w, s, h), h, i)
    {
      assert i <= w(p).height ==> StoredAt(w, s, p, i);
    }
  }

  lemma TipGrows(w: World, s: Store, h: Hash)
    requires Shaped(w, s) && h in s.records && Extends(w, s, h)
    ensures var p := s.peak.value.hash;
            w(h).hash == h && w(h).height == w(p).height + 1 && Tip(w, h) == Tip(w, p) + [w(h)] && |Tip(w, p)| == w(p).height + 1
  {
    hide GoodRows;
    assert Linked(w, s.records.Keys, h) && Linked(w, s.records.Keys, s.peak.value.hash);
  }

  /** The height a reorg leaves the start at. */
  ghost function Lowered(w: World, s: Store, h: Hash, a: nat): nat {
    var f := ForkOf(s.main, Tip(w, h));
    if f + 1 < a then f + 1 else a
  }

  /** A reorg lowers the start to just above its fork, and otherwise keeps it. */
  lemma SwitchLowersStart(w: World, s: Store, h: Hash, a: nat)
    requires Shaped(w, s) && Vetted(w, s) && StartedAt(w, s, a) && h in s.records && h !in s.main && w(h).hash == h
    requires Reachable(w, s, h)
    ensures StartedAt(w, Switch(w, s, h), Lowered(w, s, h, a))
  {
    hide Replay, ValidChain, GoodArchive, Tip, Vetted, PeakFlags, StoredAt, Since, Recent, RollbackTo, ForkOf, Onto;
    var f, chain, p := ForkOf(s.main, Tip(w, h)), Tip(w, h), s.peak.value.hash;
    ForkIsShared(w, s, h);
    ForkBelowTip(w, s, h);
    RolledBackSince(w, s, h, a);
    var l := Lowered(w, s, h, a);
    SinceContinues(chain, l, f + 1);
    assert chain[..f + 1] == Tip(w, p)[..f + 1];
    forall i | l <= i <= w(h).height
      ensures StoredAt(w, Switch(w, s, h), h, i)
    {
      SharedIsStored(w, s, h, a, i);
    }
  }

  lemma SharedIsStored(w: World, s: Store, h: Hash, a: nat, i: nat)
    requires Shaped(w, s) && StartedAt(w, s, a) && h in s.records && Reachable(w, s, h)
    requires Lowered(w, s, h, a) <= i <= w(h).height
    ensures StoredAt(w, Switch(w, s, h), h, i)
  {
    hide GoodArchive, PeakFlags, ForkOf, Onto, Since, RollbackTo;
    var f, p := ForkOf(s.main, Tip(w, h)), s.peak.value.hash;
    ForkIsShared(w, s, h);
    if i <= f {
      assert StoredAt(w, s, p, i);
      assert Tip(w, p)[..f + 1][i] == Tip(w, h)[..f + 1][i];
    } else {
      assert StoredAt(w, s, h, i);
    }
  }

  /** The table rolled back to the fork is what the shared blocks from the new start on left. */
  lemma RolledBackSince(w: World, s: Store, h: Hash, a: nat)
    requires Shaped(w, s) && Vetted(w, s) && StartedAt(w, s, a) && h in s.records && ForkOf(s.main, Tip(w, h)) >= 0
    ensures var f, l := ForkOf(s.main, Tip(w, h)), Lowered(w, s, h, a);
            && l <= f + 1 <= |Tip(w, s.peak.value.hash)|
            && RollbackTo(s.coins, f) == Since(Tip(w, s.peak.value.hash)[..f + 1], l)
  {
    hide Replay, ValidChain, GoodArchive, Tip, Vetted, PeakFlags, StoredAt, Recent, RollbackTo, ForkOf, LastTx, Complete, Onto;
    var f, p, l := ForkOf(s.main, Tip(w, h)), s.peak.value.hash, Lowered(w, s, h, a);
    var top := Tip(w, p);
    PeakIsRecorded(w, s);
    ForkIsShared(w, s, h);
    TipIsUpright(w, s, p);
    StartIsPlainOrValid(w, s, a);
    var low := top[..f + 1];
    SinceIsRecent(low, l);
    if Complete(w, s.bodies.Keys, p, w(p).height) && ValidChain(top) {
      SinceIsRecent(top, a);
      RollbackRecent(Replay(top), a, f);
      RollbackUndoesSuffix(top, f);
      BornBelow(low);
      RecentAboveAll(Replay(low), a, l, f);
    } else {
      NothingToRoll(f);
      PlainBelow(top, low, a, l);
    }
  }

  lemma RecentAboveAll(t: Table, a: nat, l: nat, f: int)
    requires (forall n :: n in t ==> t[n].confirmed < f + 1) && (l == a || l == f + 1 < a)
    ensures Recent(t, a) == Recent(t, l)
  {
  }

  lemma NothingToRoll(f: int)
    ensures RollbackTo(map[], f) == map[]
  {
  }

  lemma PlainBelow(top: seq<Block>, low: seq<Block>, a: nat, l: nat)
    requires |low| <= |top| && low == top[..|low|] && l <= |low| && (l == a || l == |low|) && LastTx(top) < a
    ensures Since(low, l) == map[]
  {
    hide LastTx;
    forall i | 0 <= i < |low[l..]|
      ensures !low[l..][i].IsTx()
    {
      assert low[l..][i] == top[l + i];
    }
    PlainSince(map[], low[l..]);
  }

  /**
   A reorg gives the replay of its branch exactly when that branch has no transaction block above
   genesis below the height where the chain now starts: the old start, or just above the fork.
   */
  lemma SwitchExactly(w: World, s: Store, h: Hash, a: nat)
    requires Shaped(w, s) && Vetted(w, s) && StartedAt(w, s, a) && h in s.bodies && h !in s.main && Reachable(w, s, h)
    ensures Lowered(w, s, h, a) <= w(h).height
    ensures Replayed(w, Switch(w, s, h)) <==>
              Complete(w, s.bodies.Keys, h, w(h).height) && LastTx(Tip(w, h)[..Lowered(w, s, h, a)]) <= 0
  {
    hide Replay, ValidChain, GoodArchive, Tip, Vetted, PeakFlags, StoredAt, Since, Reachable, Lowered, LastTx, Complete, ForkOf, Onto,
         Replayed;
    ShapedIsGood(w, s);
    StoredIsLinked(w, s, h);
    SwitchLowersStart(w, s, h, a);
    SwitchIsShaped(w, s, h);
    StartDecides(w, Switch(w, s, h), Lowered(w, s, h, a));
  }

  lemma ShapedIsGood(w: World, s: Store)
    requires Shaped(w, s)
    ensures GoodArchive(w, s)
  {
  }

  lemma SwitchIsShaped(w: World, s: Store, h: Hash)
    requires Shaped(w, s) && h in s.records
    ensures Shaped(w, Switch(w, s, h)) && (Vetted(w, Switch(w, s, h)) <==> Vetted(w, s))
  {
    hide GoodArchive, Tip, Vetted, Onto;
    GoodArchiveDependsOnRows(w, s, Switch(w, s, h));
  }

  // ---- Runs -------------------------------------------------------------------------------------------------------

  /** Where the chain starts after one event. */
  ghost function StartAfter(w: World, s: Store, e: Event, a: nat): nat {
    if e.Archived? || Fails(w, s, e.hash) || !Heavier(w, s, e.hash) then a
    else if s.peak.None? then w(e.hash).height
    else if Extends(w, s, e.hash) then a
    else Lowered(w, s, e.hash, a)
  }

  /** Where the chain starts after a run: the first block confirmed, lowered by every reorg below it. */
  ghost function StartOf(w: World, s: Store, events: seq<Event>): nat {
    if events == [] then 0
    else
      var before := events[..|events| - 1];
      StartAfter(w, After(w, s, before), events[|events| - 1], StartOf(w, s, before))
  }

  /** An event the engine can perform: a block archived because it fits, or a stored one confirmed. */
  ghost predicate Performable(w: World, s: Store, e: Event) {
    match e
    case Archived(b) => Fits(w, s, b)
    case Confirmed(h) => h in s.bodies
  }

  ghost predicate Sound(w: World, s: Store, events: seq<Event>) {
    forall i {:trigger events[i]} :: 0 <= i < |events| ==> Performable(w, After(w, s, events[..i]), events[i])
  }

  /** Structure, validated spends, and the table of a chain that started at `a`. */
  ghost predicate Started(w: World, s: Store, a: nat) {
    Shaped(w, s) && Vetted(w, s) && if s.peak.Some? then StartedAt(w, s, a) else s.coins == map[]
  }

  lemma EventKeepsStart(w: World, s: Store, e: Event, a: nat)
    requires Started(w, s, a) && Performable(w, s, e)
    ensures Started(w, Perform(w, s, e), StartAfter(w, s, e, a))
  {
    hide StartedAt, Shaped, Vetted, Fits, Reachable, Lowered, Land, Switch, Persist, Tip;
    match e
    case Archived(b) => ArchivingKeepsStart(w, s, b, a);
    case Confirmed(h) =>
      if !Fails(w, s, h) && Heavier(w, s, h) {
        ConfirmingKeepsStart(w, s, h, a);
      }
  }

  lemma ArchivingKeepsStart(w: World, s: Store, b: Block, a: nat)
    requires Started(w, s, a) && Fits(w, s, b)
    ensures Started(w, Persist(s, b), a)
  {
    hide Shaped, Vetted, CoinRules, HeaderBinds, ParentStored, Tip, RecordOf, Since;
    PersistIsShaped(w, s, b);
    PersistIsVetted(w, s, b);
    var t := Persist(s, b);
    if s.peak.Some? {
      var p := s.peak.value.hash;
      forall i | a <= i <= w(p).height
        ensures StoredAt(w, t, p, i)
      {
        assert StoredAt(w, s, p, i);
      }
    }
  }

  lemma ConfirmingKeepsStart(w: World, s: Store, h: Hash, a: nat)
    requires Started(w, s, a) && h in s.bodies && !Fails(w, s, h) && Heavier(w, s, h)
    ensures Started(w, Step(w, s, h), StartAfter(w, s, Confirmed(h), a))
  {
    hide StartedAt, Shaped, Vetted, Reachable, Lowered, Land, Switch, Tip;
    ShapedIsGood(w, s);
    StoredIsLinked(w, s, h);
    LandIsShaped(w, s, h);
    SwitchIsShaped(w, s, h);
    PeakOfStep(w, s, h);
    if s.peak.None? {
      FirstStarts(w, s, h);
    } else if Extends(w, s, h) {
      ExtensionKeepsStart(w, s, h, a);
    } else {
      HeavierIsNew(w, s, h);
      SwitchLowersStart(w, s, h, a);
    }
  }

  lemma PeakOfStep(w: World, s: Store, h: Hash)
    ensures Land(w, s, h).peak.Some? && Switch(w, s, h).peak.Some?
  {
  }

  lemma HeavierIsNew(w: World, s: Store, h: Hash)
    requires Shaped(w, s) && s.peak.Some? && Heavier(w, s, h)
    ensures h !in s.main
  {
    hide Tip, Shaped;
    if h in s.main {
      MainIsLighter(w, s, h);
    }
  }

  lemma {:induction false} RunKeepsStart(w: World, s: Store, events: seq<Event>)
    requires GoodStore(w, s) && Sound(w, s, events)
    ensures Started(w, After(w, s, events), StartOf(w, s, events))
    decreases |events|
  {
    hide Started, Shaped, Vetted, Perform, Performable, StartAfter;
    if events == [] {
      GoodIsStarted(w, s);
    } else {
      var n := |events| - 1;
      var before := events[..n];
      assert Sound(w, s, before) by {
        forall i | 0 <= i < n
          ensures Performable(w, After(w, s, before[..i]), before[i])
        {
          assert before[..i] == events[..i] && before[i] == events[i];
        }
      }
      RunKeepsStart(w, s, before);
      assert Performable(w, After(w, s, events[..n]), events[n]);
      EventKeepsStart(w, After(w, s, before), events[n], StartOf(w, s, before));
    }
  }

  lemma GoodIsStarted(w: World, s: Store)
    requires GoodStore(w, s)
    ensures Started(w, s, 0)
  {
    hide StartedAt, Shaped, Vetted;
    if s.peak.Some? {
      ReplayedIsFromGenesis(w, s);
    }
  }

  /**
   The ledger law after any run of archiving and confirming, from any store that keeps it: the table is
   the replay of the peak's branch exactly when that branch is stored and has no transaction block
   above genesis below the run's start. Every table on the way is that of the branch from the start on.
   */
  lemma LawAfterRun(w: World, s: Store, events: seq<Event>)
    requires GoodStore(w, s) && Sound(w, s, events)
    ensures var t, a := After(w, s, events), StartOf(w, s, events);
            && Shaped(w, t) && Vetted(w, t)
            && (t.peak.None? ==> Replayed(w, t))
            && (t.peak.Some? ==>
                  && StartedAt(w, t, a)
                  && (Replayed(w, t) <==> && Complete(w, t.bodies.Keys, t.peak.value.hash, w(t.peak.value.hash).height)
                                          && LastTx(Tip(w, t.peak.value.hash)[..a]) <= 0))
  {
    hide Shaped, Vetted, StartedAt, Since, After, StartOf, Sound, Replay, Complete, LastTx;
    RunKeepsStart(w, s, events);
    var t := After(w, s, events);
    if t.peak.Some? {
      StartInRange(w, t, StartOf(w, s, events));
      StartDecides(w, t, StartOf(w, s, events));
    }
  }

  lemma StartInRange(w: World, s: Store, a: nat)
    requires StartedAt(w, s, a)
    ensures a <= w(s.peak.value.hash).height
  {
  }
}
