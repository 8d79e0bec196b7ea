/**
 The record floor of a restart: how far down the parent links from the peak the store is unbroken,
 measured by a bounded walk.
 */
module ResumeFloor {
  import opened Arithmetic
  import opened Coins
  import opened RecordWalk

  const FLOOR_WALK_SLACK: nat := 16

  datatype Floor = Reached(floor: nat) | Broken(stop: nat)

  /** The walk from `h` with `fuel` reads left, having reached down to `lowest`. */
  function FloorFrom(w: Source, store: set<Hash>, h: Hash, lowest: nat, needed: nat, fuel: nat): Floor
    decreases fuel
  {
    if fuel == 0 || h !in store then Broken(lowest)
    else if w(h).height <= needed then Reached(w(h).height)
    else FloorFrom(w, store, w(h).prev, Min(lowest, w(h).height), needed, fuel - 1)
  }

  function MaxReads(local: nat, needed: nat): nat {
    SaturatingSub(local, needed) + FLOOR_WALK_SLACK + 1
  }

  function FloorOf(w: Source, store: set<Hash>, peak: Hash, local: nat, needed: nat): Floor {
    FloorFrom(w, store, peak, local + 1, needed, MaxReads(local, needed))
  }

  /** Measure the floor; on any store, even one with cycles, within the bound on reads. */
  method MeasureRecordFloor(w: Source, store: set<Hash>, peak: Hash, local: nat, needed: nat)
    returns (floor: Floor, ghost fetches: nat)
    ensures floor == FloorOf(w, store, peak, local, needed)
    ensures fetches <= SaturatingSub(local, needed) + 17
  {
    var maxSteps := SaturatingSub(local, needed) + FLOOR_WALK_SLACK;
    var hash, steps := peak, 0;
    var lowestReached: nat := local + 1;
    fetches := 0;
    while true
      invariant 0 <= steps <= maxSteps + 1 && fetches == steps
      invariant FloorOf(w, store, peak, local, needed)
                == FloorFrom(w, store, hash, lowestReached, needed, maxSteps + 1 - steps)
      decreases maxSteps + 1 - steps
    {
      if steps > maxSteps {
        return Broken(lowestReached), fetches;
      }
      fetches := fetches + 1;
      if hash !in store {
        return Broken(lowestReached), fetches;
      }
      var rec := w(hash);
      if rec.height <= needed {
        return Reached(rec.height), fetches;
      }
      lowestReached := Min(lowestReached, rec.height);
      hash := rec.prev;
      steps := steps + 1;
    }
  }

  // ---- What the floor says about the store ----------------------------------------------------------------

  /** A store whose held links drop height by one, with the peak, if held, at its recorded height. */
  ghost predicate WellFormed(w: Source, store: set<Hash>, peak: Hash, local: nat) {
    Consecutive(w, store) && (peak in store ==> w(peak).height == local)
  }

  /** The lowest record held on the chain from `h`. */
  ghost function Bottom(w: Source, store: set<Hash>, h: Hash): (b: Hash)
    requires Consecutive(w, store) && h in store
    ensures b in store && w(b).height <= w(h).height && (w(b).height == 0 || w(b).prev !in store)
    decreases w(h).height
  {
    if w(h).height == 0 || w(h).prev !in store then h else Bottom(w, store, w(h).prev)
  }

  lemma {:induction false} FloorFromHeld(w: Source, store: set<Hash>, h: Hash, lowest: nat, needed: nat, fuel: nat)
    requires Consecutive(w, store) && h in store && w(h).height < lowest
    requires fuel > 0 && needed + fuel > w(h).height
    ensures var f := FloorFrom(w, store, h, lowest, needed, fuel);
            var bottom := w(Bottom(w, store, h)).height;
            if bottom <= needed then f == Reached(Min(needed, w(h).height)) else f == Broken(bottom)
    decreases fuel
  {
    if w(h).height > needed {
      var p := w(h).prev;
      if p in store {
        FloorFromHeld(w, store, p, w(h).height, needed, fuel - 1);
      }
    }
  }

  /**
   The walk says Reached exactly when the peak's ancestry is held down to the needed height;
   otherwise it stops at the lowest held ancestor, whose parent is missing.
   */
  lemma FloorIsExact(w: Source, store: set<Hash>, peak: Hash, local: nat, needed: nat)
    requires WellFormed(w, store, peak, local)
    ensures peak !in store ==> FloorOf(w, store, peak, local, needed) == Broken(local + 1)
    ensures peak in store ==>
              var bottom := Bottom(w, store, peak);
              if w(bottom).height <= needed then FloorOf(w, store, peak, local, needed) == Reached(Min(needed, local))
              else FloorOf(w, store, peak, local, needed) == Broken(w(bottom).height) && w(bottom).prev !in store
  {
    if peak in store {
      FloorFromHeld(w, store, peak, local + 1, needed, MaxReads(local, needed));
    }
  }

  /** The record a backfill must fetch next. */
  ghost function Gap(w: Source, store: set<Hash>, peak: Hash): Hash
    requires Consecutive(w, store)
  {
    if peak in store then w(Bottom(w, store, peak)).prev else peak
  }

  lemma {:induction false} BottomDrops(w: Source, store: set<Hash>, h: Hash)
    requires Consecutive(w, store) && h in store && w(Bottom(w, store, h)).height > 0
    requires Consecutive(w, store + {w(Bottom(w, store, h)).prev})
    ensures var more := store + {w(Bottom(w, store, h)).prev};
            w(Bottom(w, more, h)).height < w(Bottom(w, store, h)).height
    decreases w(h).height
  {
    var bottom := Bottom(w, store, h);
    if h != bottom {
      BottomDrops(w, store, w(h).prev);
    }
  }

  /** Fetching the missing parent strictly lowers the break, or closes it. */
  lemma BackfillLowers(w: Source, store: set<Hash>, peak: Hash, local: nat, needed: nat)
    requires WellFormed(w, store, peak, local) && FloorOf(w, store, peak, local, needed).Broken?
    requires WellFormed(w, store + {Gap(w, store, peak)}, peak, local)
    ensures Gap(w, store, peak) !in store
    ensures var after := FloorOf(w, store + {Gap(w, store, peak)}, peak, local, needed);
            after.Broken? ==> after.stop < FloorOf(w, store, peak, local, needed).stop
  {
    var more := store + {Gap(w, store, peak)};
    hide FloorOf;
    FloorIsExact(w, store, peak, local, needed);
    FloorIsExact(w, more, peak, local, needed);
    if peak in store {
      BottomDrops(w, store, peak);
    }
  }

  /** Every link of every record drops height by one. */
  ghost predicate ChainOfHeights(w: Source) {
    forall h :: w(h).height > 0 ==> w(w(h).prev).height == w(h).height - 1
  }

  /** Records a backfill may still have to fetch. */
  function Owed(f: Floor, needed: nat): nat {
    match f
    case Reached(_) => 0
    case Broken(stop) => if stop > needed then stop - needed else 1
  }

  /** The store after `k` rounds, each fetching the record at the gap. */
  ghost function Backfilled(w: Source, store: set<Hash>, peak: Hash, k: nat): set<Hash>
    requires ChainOfHeights(w)
  {
    if k == 0 then store
    else
      var held := Backfilled(w, store, peak, k - 1);
      held + {Gap(w, held, peak)}
  }

  ghost function FloorAfter(w: Source, store: set<Hash>, peak: Hash, local: nat, needed: nat, k: nat): Floor
    requires ChainOfHeights(w)
  {
    FloorOf(w, Backfilled(w, store, peak, k), peak, local, needed)
  }

  lemma {:induction false} BottomSinks(w: Source, store: set<Hash>, more: set<Hash>, h: Hash)
    requires Consecutive(w, store) && Consecutive(w, more) && store <= more && h in store
    ensures w(Bottom(w, more, h)).height <= w(Bottom(w, store, h)).height
    decreases w(h).height
  {
    if w(h).height > 0 && w(h).prev in store {
      BottomSinks(w, store, more, w(h).prev);
    }
  }

  /** More records never break a floor that is reached. */
  lemma ReachedStays(w: Source, store: set<Hash>, more: set<Hash>, peak: Hash, local: nat, needed: nat)
    requires WellFormed(w, store, peak, local) && WellFormed(w, more, peak, local) && store <= more
    requires FloorOf(w, store, peak, local, needed).Reached?
    ensures FloorOf(w, more, peak, local, needed).Reached?
  {
    hide FloorOf;
    FloorIsExact(w, store, peak, local, needed);
    FloorIsExact(w, more, peak, local, needed);
    BottomSinks(w, store, more, peak);
  }

  /** One round: a reached floor stays reached; a break strictly falls or closes, for one record that was missing. */
  lemma BackfillRound(w: Source, store: set<Hash>, peak: Hash, local: nat, needed: nat, k: nat)
    requires ChainOfHeights(w) && w(peak).height == local
    ensures var f, g := FloorAfter(w, store, peak, local, needed, k), FloorAfter(w, store, peak, local, needed, k + 1);
            && (f.Reached? ==> g.Reached?)
            && (f.Broken? ==> Gap(w, Backfilled(w, store, peak, k), peak) !in Backfilled(w, store, peak, k))
            && (f.Broken? && g.Broken? ==> needed < g.stop < f.stop)
  {
    hide FloorOf;
    var held := Backfilled(w, store, peak, k);
    var more := held + {Gap(w, held, peak)};
    FloorIsExact(w, held, peak, local, needed);
    FloorIsExact(w, more, peak, local, needed);
    if FloorOf(w, held, peak, local, needed).Reached? {
      ReachedStays(w, held, more, peak, local, needed);
    } else {
      BackfillLowers(w, held, peak, local, needed);
    }
  }

  /** As long as the floor is broken, each round fetched one record that was missing and the break fell. */
  lemma {:induction false} BackfillFalls(w: Source, store: set<Hash>, peak: Hash, local: nat, needed: nat, j: nat, k: nat)
    requires ChainOfHeights(w) && w(peak).height == local && j <= k && FloorAfter(w, store, peak, local, needed, k).Broken?
    ensures var f, g := FloorAfter(w, store, peak, local, needed, j), FloorAfter(w, store, peak, local, needed, k);
            f.Broken? && f.stop >= g.stop + (k - j) && (j < k ==> g.stop > needed)
    ensures |Backfilled(w, store, peak, k)| == |Backfilled(w, store, peak, j)| + (k - j)
    decreases k
  {
    hide FloorAfter;
    if j < k {
      BackfillRound(w, store, peak, local, needed, k - 1);
      BackfillFalls(w, store, peak, local, needed, j, k - 1);
    }
  }

  /** After as many rounds as are owed the floor is reached, and it stays reached. */
  lemma BackfillConverges(w: Source, store: set<Hash>, peak: Hash, local: nat, needed: nat, k: nat)
    requires ChainOfHeights(w) && w(peak).height == local && k >= Owed(FloorOf(w, store, peak, local, needed), needed)
    ensures FloorAfter(w, store, peak, local, needed, k).Reached?
  {
    hide FloorOf;
    if FloorAfter(w, store, peak, local, needed, k).Broken? {
      BackfillFalls(w, store, peak, local, needed, 0, k);
    }
  }
}
