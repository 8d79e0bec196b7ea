/**
 The read context of a staging window: the record rows of its blocks and the peak height, read once
 before the loop, from which staging decides that a block is not confirmed yet.
 */
module StagePreload {
  import opened Coins
  import opened Archive
  import opened MainChain
  import opened ChainEngine
  import opened Confirmation

  datatype Preload = Preload(covered: set<Hash>, candidates: map<Hash, BlockRecord>, peakHeight: Option<nat>)

  /** What a store's rows and peak say of the covered blocks. */
  function Snapshot(s: Store, covered: set<Hash>): Preload {
    Preload(covered, map h | h in covered && h in s.records :: s.records[h],
            if s.peak.Some? then Some(s.peak.value.height) else None)
  }

  /** The answer of staging, whatever the context holds: a covered block by its row, any other by the flags. */
  ghost predicate ConfirmedBy(s: Store, context: Option<Preload>, h: Hash) {
    if context.None? || h !in context.value.covered then h in s.main
    else
      var p := context.value;
      && h in p.candidates && p.peakHeight.Some? && p.candidates[h].height <= p.peakHeight.value
      && h in s.main && h in s.records && s.records[h].height == p.candidates[h].height
  }

  method AlreadyConfirmed(s: Store, context: Option<Preload>, h: Hash, ghost w: World) returns (r: bool)
    requires s.main <= s.records.Keys && GoodArchive(w, s) && FlagsAreAncestry(w, s)
    ensures r <==> ConfirmedBy(s, context, h)
  {
    hide GoodArchive, FlagsAreAncestry;
    if context.Some? && h in context.value.covered {
      var p := context.value;
      if h !in p.candidates || p.peakHeight.None? || p.candidates[h].height > p.peakHeight.value {
        return false;
      }
      var row := RecordByHeight(s, p.candidates[h].height);
      r := row.Some? && row.value.hash == h;
      RowAtHeight(w, s, h, p.candidates[h].height, row);
    } else {
      r := IsConfirmed(s, h, w);
    }
  }

  lemma RowAtHeight(w: World, s: Store, h: Hash, height: nat, row: Option<BlockRecord>)
    requires s.main <= s.records.Keys && GoodArchive(w, s) && FlagsAreAncestry(w, s)
    requires row.Some? ==> exists g :: g in s.main && s.records[g] == row.value && row.value.height == height
    requires row.None? ==> forall g :: g in s.main ==> s.records[g].height != height
    ensures row.Some? && row.value.hash == h <==> h in s.main && s.records[h].height == height
  {
    hide FlagsAreAncestry, RecordOf;
    if row.Some? {
      var g :| g in s.main && s.records[g] == row.value && row.value.height == height;
      assert GoodRows(w, s, g) && Linked(w, s.records.Keys, g);
      RecordFields(w(g));
      if h in s.main && s.records[h].height == height {
        assert GoodRows(w, s, h);
        RecordFields(w(h));
        FlaggedAncestry(w, s, h, 0);
      }
    }
  }

  /** No flagged block stands above the peak. */
  lemma MainIsBelowPeak(w: World, s: Store, h: Hash)
    requires Shaped(w, s) && h in s.main
    ensures s.peak.Some? && h in s.records && s.records[h].height <= s.peak.value.height
  {
    hide Tip, RecordOf;
    var p := s.peak.value.hash;
    MainInRecords(w, s);
    assert GoodRows(w, s, h);
    RecordFields(w(h));
    PlaceBelow(w, s, h);
  }

  lemma PlaceBelow(w: World, s: Store, h: Hash)
    requires Shaped(w, s) && h in s.main
    ensures s.peak.Some? && w(h).height <= w(s.peak.value.hash).height
  {
    hide GoodRows;
    var p := s.peak.value.hash;
    var b :| b in Tip(w, p) && b.hash == h;
    var j :| 0 <= j < |Tip(w, p)| && Tip(w, p)[j] == b;
    BranchAt(w, s.records.Keys, p, j);
  }

  /** As long as only rows were added since the context was read, it gives the flags' answer. */
  lemma ContextIsExact(w: World, was: Store, s: Store, covered: set<Hash>, h: Hash)
    requires Shaped(w, was) && Shaped(w, s) && ArchiveGrew(was, s)
    ensures ConfirmedBy(s, Some(Snapshot(was, covered)), h) <==> h in s.main
  {
    hide Shaped, RecordOf;
    if h in s.main {
      MainIsBelowPeak(w, was, h);
      MainIsBelowPeak(w, s, h);
      SameRow(w, was, s, h);
    }
  }

  lemma SameRow(w: World, was: Store, s: Store, h: Hash)
    requires Shaped(w, was) && Shaped(w, s) && h in was.records && h in s.records
    ensures was.records[h] == s.records[h]
  {
    assert GoodRows(w, was, h) && GoodRows(w, s, h);
  }
}
