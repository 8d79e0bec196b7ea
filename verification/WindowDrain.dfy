/**
 The verdict of a window's deferred proofs and signatures, and the main chain: which prefix of a window
 is confirmed, and when every confirmed block has passed.
 */
module WindowDrain {
  import opened Arithmetic
  import opened Coins
  import opened Archive
  import opened MainChain
  import opened ForkChoice

  // ---- How far a window is confirmed ---------------------------------------------------------------------

  /** The first block whose own work fails; none that fails alone counts as the first block. */
  function Boundary(window: bool, blocks: seq<bool>): (upto: nat)
    ensures upto <= |blocks| && forall i :: 0 <= i < upto ==> window || blocks[i]
    ensures !window && (exists i :: 0 <= i < |blocks| && !blocks[i]) ==> upto < |blocks| && !blocks[upto]
    ensures !window && (forall i :: 0 <= i < |blocks| ==> blocks[i]) ==> upto == 0
  {
    if window then |blocks| else FirstFailing(blocks, 0)
  }

  function FirstFailing(blocks: seq<bool>, from: nat): (upto: nat)
    requires from <= |blocks| && forall i :: 0 <= i < from ==> blocks[i]
    ensures upto <= |blocks| && (forall i :: 0 <= i < upto ==> blocks[i])
    ensures if exists i :: 0 <= i < |blocks| && !blocks[i] then upto < |blocks| && !blocks[upto] else upto == 0
    decreases |blocks| - from
  {
    if from == |blocks| then 0 else if blocks[from] then FirstFailing(blocks, from + 1) else from
  }

  /** Block `i`'s share of a window that failed fails too. */
  predicate FailsShare(vdfWindow: bool, vdf: seq<bool>, sigWindow: bool, sig: seq<bool>, i: nat)
    requires |vdf| == |sig| && i < |vdf|
  {
    (!vdfWindow && !vdf[i]) || (!sigWindow && !sig[i])
  }

  /**
   The number of staged blocks to confirm, from the verdict on the whole window's proofs and signatures
   and on each block's share of them. Every block below it passed both; it is the whole window exactly
   when both windows passed, the first block that fails when each failed window has one, and none of the
   window when a failed window has none.
   */
  method ConfirmUpto(vdfWindow: bool, vdf: seq<bool>, sigWindow: bool, sig: seq<bool>) returns (upto: nat)
    requires |vdf| == |sig|
    ensures upto == Min(Boundary(vdfWindow, vdf), Boundary(sigWindow, sig))
    ensures forall i :: 0 <= i < upto ==> (vdfWindow || vdf[i]) && (sigWindow || sig[i])
    ensures vdf != [] ==> (upto == |vdf| <==> vdfWindow && sigWindow)
    ensures forall i :: 0 <= i < upto ==> !FailsShare(vdfWindow, vdf, sigWindow, sig, i)
    ensures upto < |vdf| ==> if (!vdfWindow ==> exists i :: 0 <= i < |vdf| && !vdf[i]) && (!sigWindow ==> exists i :: 0 <= i < |sig| && !sig[i])
                             then FailsShare(vdfWindow, vdf, sigWindow, sig, upto) else upto == 0
  {
    upto := |vdf|;
    if !vdfWindow {
      upto := ScanBlocks(vdf);
    }
    if !sigWindow {
      var sigUpto := ScanBlocks(sig);
      if sigUpto < upto {
        upto := sigUpto;
      }
    }
  }

  method ScanBlocks(blocks: seq<bool>) returns (upto: nat)
    ensures upto == Boundary(false, blocks)
  {
    upto := 0;
    var i, found := 0, false;
    while i < |blocks| && !found
      invariant i <= |blocks| && (forall j :: 0 <= j < i ==> blocks[j])
      invariant FirstFailing(blocks, 0) == if found then upto else FirstFailing(blocks, i)
      invariant !found ==> upto == 0
      decreases |blocks| - i, !found
    {
      if !blocks[i] {
        upto, found := i, true;
      } else {
        i := i + 1;
      }
    }
  }

  // ---- Passed blocks and the main chain ------------------------------------------------------------------------

  ghost predicate AllPassed(ok: Hash -> bool, s: Store) {
    forall h :: h in s.main ==> ok(h)
  }

  /** The blocks a winning block brings onto the main chain with it. */
  ghost predicate BranchPassed(w: World, ok: Hash -> bool, s: Store, h: Hash) {
    var chain := Tip(w, h);
    forall i {:trigger chain[i]} :: ForkOf(s.main, chain) < i < |chain| ==> ok(chain[i].hash)
  }

  /** One step of fork choice keeps the main chain passed exactly when every block above its fork passed. */
  lemma StepPassedExactly(w: World, ok: Hash -> bool, s: Store, h: Hash)
    requires Shaped(w, s) && h in s.records && AllPassed(ok, s)
    ensures AllPassed(ok, Step(w, s, h)) <==> !Heavier(w, s, h) || BranchPassed(w, ok, s, h)
  {
    hide Tip, GoodArchive, Onto;
    if Heavier(w, s, h) {
      var chain, f := Tip(w, h), ForkOf(s.main, Tip(w, h));
      assert Step(w, s, h).main == HashesOf(chain);
      if BranchPassed(w, ok, s, h) {
        forall x | x in HashesOf(chain)
          ensures ok(x)
        {
          var b :| b in chain && b.hash == x;
          var i :| 0 <= i < |chain| && chain[i] == b;
          if i <= f {
            BelowForkIsMain(w, s, h, i);
          }
        }
      }
      if AllPassed(ok, Step(w, s, h)) {
        forall i | f < i < |chain|
          ensures ok(chain[i].hash)
        {
          assert chain[i] in chain;
        }
      }
    }
  }

  lemma BelowForkIsMain(w: World, s: Store, h: Hash, i: nat)
    requires Shaped(w, s) && h in s.records && i <= ForkOf(s.main, Tip(w, h))
    ensures Tip(w, h)[i].hash in s.main
  {
    hide GoodRows, ForkOf;
    var f := ForkOf(s.main, Tip(w, h));
    GoodFlags(w, s);
    BranchAt(w, s.records.Keys, h, f);
    BranchAt(w, s.records.Keys, h, i);
    FlaggedAncestry(w, s, Tip(w, h)[f].hash, i);
  }

  // ---- Runs in order ----------------------------------------------------------------------------------------------

  /** Blocks that passed, each above its parent and with it among them. */
  ghost predicate Cleared(w: World, ok: Hash -> bool, known: set<Hash>) {
    AllLinked(w, known) && forall x :: x in known ==> ok(x)
  }

  /** What a run has confirmed, with the main chain it started from. */
  ghost function Vouched(w: World, s: Store, events: seq<Event>): set<Hash> {
    s.main + ToSet(Processed(w, s, events))
  }

  /** Every confirmation is of a block that passed, above one confirmed before it or on the first main chain. */
  ghost predicate InOrder(w: World, ok: Hash -> bool, s: Store, events: seq<Event>) {
    forall i {:trigger events[i]} :: 0 <= i < |events| && events[i].Confirmed? ==>
      ok(events[i].hash) && Linked(w, Vouched(w, s, events[..i]), events[i].hash)
  }

  lemma MainIsCleared(w: World, ok: Hash -> bool, s: Store)
    requires Shaped(w, s) && AllPassed(ok, s)
    ensures Cleared(w, ok, s.main)
  {
    hide GoodRows;
    GoodFlags(w, s);
    forall h | h in s.main
      ensures Linked(w, s.main, h)
    {
      FlaggedAncestry(w, s, h, w(h).height);
      assert Linked(w, s.records.Keys, h);
      if w(h).height > 0 {
        FlaggedAncestry(w, s, h, w(h).height - 1);
        BranchAt(w, s.records.Keys, h, w(h).height - 1);
        BranchAt(w, s.records.Keys, h, w(h).height);
      }
    }
  }

  lemma ClearedGrows(w: World, ok: Hash -> bool, known: set<Hash>, h: Hash)
    requires Cleared(w, ok, known) && ok(h) && Linked(w, known, h)
    ensures Cleared(w, ok, known + {h})
  {
    forall x | x in known + {h}
      ensures Linked(w, known + {h}, x)
    {
      assert x in known ==> Linked(w, known, x);
    }
  }

  lemma ClearedBranch(w: World, ok: Hash -> bool, known: set<Hash>, h: Hash)
    requires Cleared(w, ok, known) && h in known
    ensures HashesOf(Tip(w, h)) <= known
  {
    forall x | x in HashesOf(Tip(w, h))
      ensures x in known
    {
      var b :| b in Tip(w, h) && b.hash == x;
      var i :| 0 <= i < |Tip(w, h)| && Tip(w, h)[i] == b;
      BranchAt(w, known, h, i);
    }
  }

  /** A run in order keeps to the blocks it cleared. */
  lemma {:induction false} RunInOrder(w: World, ok: Hash -> bool, s: Store, events: seq<Event>)
    requires Shaped(w, s) && AllPassed(ok, s) && InOrder(w, ok, s, events)
    ensures var known := Vouched(w, s, events); Cleared(w, ok, known) && After(w, s, events).main <= known
    decreases |events|
  {
    hide *;
    if events == [] {
      MainIsCleared(w, ok, s);
      NothingConfirmed(w, s);
    } else {
      var n := |events| - 1;
      var before := events[..n];
      InOrderInit(w, ok, s, events);
      RunInOrder(w, ok, s, before);
      InOrderLast(w, ok, s, events);
      OneMoreEvent(w, s, before, events[n]);
      assert before + [events[n]] == events;
      InOrderStep(w, ok, After(w, s, before), Vouched(w, s, before), events[n]);
    }
  }

  lemma NothingConfirmed(w: World, s: Store)
    ensures After(w, s, []) == s && Vouched(w, s, []) == s.main
  {
  }

  lemma InOrderLast(w: World, ok: Hash -> bool, s: Store, events: seq<Event>)
    requires events != [] && InOrder(w, ok, s, events)
    ensures var n := |events| - 1;
            events[n].Confirmed? ==> ok(events[n].hash) && Linked(w, Vouched(w, s, events[..n]), events[n].hash)
  {
    hide Linked, Vouched;
  }

  /** The blocks confirmed after one more event. */
  ghost function Gained(w: World, t: Store, e: Event): set<Hash> {
    if e.Confirmed? && !Fails(w, t, e.hash) then {e.hash} else {}
  }

  lemma OneMoreEvent(w: World, s: Store, before: seq<Event>, e: Event)
    ensures After(w, s, before + [e]) == Perform(w, After(w, s, before), e)
    ensures Vouched(w, s, before + [e]) == Vouched(w, s, before) + Gained(w, After(w, s, before), e)
  {
    hide Fails, Perform, ToSet;
    assert (before + [e])[..|before|] == before;
    var done := Processed(w, s, before);
    assert done + [] == done;
    if e.Confirmed? {
      OneMoreConfirmed(done, e.hash);
    }
  }

  lemma InOrderStep(w: World, ok: Hash -> bool, t: Store, known: set<Hash>, e: Event)
    requires Cleared(w, ok, known) && t.main <= known && (e.Confirmed? ==> ok(e.hash) && Linked(w, known, e.hash))
    ensures Cleared(w, ok, known + Gained(w, t, e)) && Perform(w, t, e).main <= known + Gained(w, t, e)
  {
    hide Cleared, Fails, Step, Linked, Tip, HashesOf, RecordOf;
    if e.Confirmed? && !Fails(w, t, e.hash) {
      ClearedGrows(w, ok, known, e.hash);
      ClearedBranch(w, ok, known + {e.hash}, e.hash);
      MainOfStep(w, t, e.hash);
    } else {
      assert known + {} == known;
    }
  }

  lemma InOrderInit(w: World, ok: Hash -> bool, s: Store, events: seq<Event>)
    requires events != [] && InOrder(w, ok, s, events)
    ensures InOrder(w, ok, s, events[..|events| - 1])
  {
    hide Linked, Vouched;
    var before := events[..|events| - 1];
    forall i | 0 <= i < |before| && before[i].Confirmed?
      ensures ok(before[i].hash) && Linked(w, Vouched(w, s, before[..i]), before[i].hash)
    {
      assert before[..i] == events[..i] && before[i] == events[i];
    }
  }

  lemma OneMoreConfirmed(hs: seq<Hash>, h: Hash)
    ensures ToSet(hs + [h]) == ToSet(hs) + {h}
  {
  }

  lemma MainOfStep(w: World, s: Store, h: Hash)
    ensures Step(w, s, h).main == s.main || Step(w, s, h).main == HashesOf(Tip(w, h))
  {
    hide Tip, Onto;
  }

  /** If blocks are confirmed only above blocks confirmed before them, every main-chain block of every run has passed. */
  lemma InOrderPasses(w: World, ok: Hash -> bool, s: Store, events: seq<Event>)
    requires Shaped(w, s) && AllPassed(ok, s) && InOrder(w, ok, s, events)
    ensures AllPassed(ok, After(w, s, events))
  {
    hide Shaped, After, InOrder;
    RunInOrder(w, ok, s, events);
  }
}
