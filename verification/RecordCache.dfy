/**
 The bounded cache of recent block records: by hash, by height, and the sub-epoch summaries, with
 the lowest height evicted first.
 */
module RecordCache {
  import opened Coins
  import opened RecordWalk

  /** What the cache holds, by height. */
  type Window = map<nat, Record>

  datatype Index = Index(byHash: map<Hash, Record>, byHeight: map<nat, Hash>, summaries: map<nat, Summary>)

  /** The three maps describe one set of records, one record a height. */
  ghost predicate Agree(ix: Index) {
    && (forall h :: h in ix.byHeight ==> ix.byHeight[h] in ix.byHash && ix.byHash[ix.byHeight[h]].height == h)
    && (forall x :: x in ix.byHash ==> ix.byHash[x].hash == x && Listed(ix, x))
    && (forall h :: h in ix.summaries <==> h in ix.byHeight && ix.byHash[ix.byHeight[h]].summary.Some?)
    && (forall h :: h in ix.summaries ==> ix.byHash[ix.byHeight[h]].summary == Some(ix.summaries[h]))
  }

  ghost predicate Listed(ix: Index, x: Hash)
    requires x in ix.byHash
  {
    ix.byHash[x].height in ix.byHeight && ix.byHeight[ix.byHash[x].height] == x
  }

  ghost function Contents(ix: Index): (v: Window)
    requires Agree(ix)
    ensures v.Keys == ix.byHeight.Keys
  {
    map h | h in ix.byHeight :: ix.byHash[ix.byHeight[h]]
  }

  /** A record is cached under its hash exactly when the window has it at its height. */
  lemma CachedIsInWindow(ix: Index, x: Hash)
    requires Agree(ix)
    ensures x !in ix.byHash ==> forall h :: h in Contents(ix) ==> Contents(ix)[h].hash != x
    ensures x in ix.byHash ==> ix.byHash[x].hash == x && ix.byHash[x].height in Contents(ix)
                               && Contents(ix)[ix.byHash[x].height] == ix.byHash[x]
  {
    if x in ix.byHash {
      assert Listed(ix, x);
    }
    forall h | h in Contents(ix)
      ensures Contents(ix)[h].hash in ix.byHash
    {
      assert ix.byHash[ix.byHeight[h]].hash == ix.byHeight[h];
    }
  }

  /** The summaries are those of the records in the window. */
  lemma SummariesAreWindows(ix: Index)
    requires Agree(ix)
    ensures forall h :: h in ix.summaries <==> h in Contents(ix) && Contents(ix)[h].summary.Some?
    ensures forall h :: h in ix.summaries ==> Contents(ix)[h].summary == Some(ix.summaries[h])
  {
  }

  // ---- Updates of the index ------------------------------------------------------------------------------

  function Set(ix: Index, r: Record): Index {
    var cleared := if r.height in ix.byHeight && ix.byHeight[r.height] != r.hash
                   then ix.byHash - {ix.byHeight[r.height]} else ix.byHash;
    Index(cleared[r.hash := r], ix.byHeight[r.height := r.hash],
          if r.summary.Some? then ix.summaries[r.height := r.summary.value] else ix.summaries - {r.height})
  }

  function Without(ix: Index, low: nat): Index
    requires low in ix.byHeight
  {
    Index(ix.byHash - {ix.byHeight[low]}, ix.byHeight - {low}, ix.summaries - {low})
  }

  lemma SetAgrees(ix: Index, r: Record)
    requires Agree(ix) && (r.hash in ix.byHash ==> ix.byHash[r.hash].height == r.height)
    ensures Agree(Set(ix, r))
  {
    var s := Set(ix, r);
    forall x | x in s.byHash
      ensures s.byHash[x].hash == x && Listed(s, x)
    {
      if x != r.hash {
        assert x in ix.byHash && Listed(ix, x);
      }
    }
    forall h | h in s.byHeight
      ensures s.byHeight[h] in s.byHash && s.byHash[s.byHeight[h]].height == h
    {
      if h != r.height {
        assert ix.byHeight[h] in ix.byHash;
      }
    }
  }

  lemma SetContents(ix: Index, r: Record)
    requires Agree(ix) && Agree(Set(ix, r))
    ensures Contents(Set(ix, r)) == Contents(ix)[r.height := r]
  {
  }

  lemma WithoutAgrees(ix: Index, low: nat)
    requires Agree(ix) && low in ix.byHeight
    ensures Agree(Without(ix, low))
  {
    var s := Without(ix, low);
    forall x | x in s.byHash
      ensures s.byHash[x].hash == x && Listed(s, x)
    {
      assert Listed(ix, x);
    }
  }

  lemma WithoutContents(ix: Index, low: nat)
    requires Agree(ix) && low in ix.byHeight && Agree(Without(ix, low))
    ensures Contents(Without(ix, low)) == Contents(ix) - {low}
  {
  }

  // ---- Eviction ----------------------------------------------------------------------------------------------

  ghost predicate IsLowest(heights: set<nat>, low: nat) {
    low in heights && forall h :: h in heights ==> low <= h
  }

  lemma {:induction false} LowestExists(heights: set<nat>)
    requires heights != {}
    ensures exists low :: IsLowest(heights, low)
    decreases heights
  {
    var h :| h in heights;
    var rest := heights - {h};
    if rest == {} {
      assert heights == {h};
      assert IsLowest(heights, h);
    } else {
      LowestExists(rest);
      var low :| IsLowest(rest, low);
      assert forall x :: x in heights ==> x == h || x in rest;
      assert IsLowest(heights, if h < low then h else low);
    }
  }

  ghost function Lowest(heights: set<nat>): (low: nat)
    requires heights != {}
    ensures IsLowest(heights, low)
  {
    LowestExists(heights);
    var low :| IsLowest(heights, low);
    low
  }

  /** Drop the lowest height when over capacity. */
  ghost function Trim(v: Window, capacity: nat): Window {
    if |v.Keys| <= capacity then v else v - {Lowest(v.Keys)}
  }

  /** The window after one insert. */
  ghost function Put(v: Window, r: Record, capacity: nat): Window {
    Trim(v[r.height := r], capacity)
  }

  /** Where the eviction loop of an insert stands: not yet evicted, or done. */
  ghost predicate Evicting(ix: Index, v: Window, capacity: nat) {
    && Agree(ix) && |v.Keys| <= capacity + 1
    && (Contents(ix) == v || (Contents(ix) == Trim(v, capacity) && |ix.byHeight.Keys| <= capacity))
  }

  lemma StartEvicting(ix: Index, r: Record, capacity: nat)
    requires Agree(ix) && Agree(Set(ix, r)) && |ix.byHeight.Keys| <= capacity
    ensures Evicting(Set(ix, r), Contents(ix)[r.height := r], capacity)
  {
    SetContents(ix, r);
    assert Contents(ix)[r.height := r].Keys == Contents(ix).Keys + {r.height};
  }

  lemma EvictOne(ix: Index, v: Window, capacity: nat)
    requires Evicting(ix, v, capacity) && |ix.byHeight.Keys| > capacity
    ensures Lowest(ix.byHeight.Keys) in ix.byHeight && Evicting(Without(ix, Lowest(ix.byHeight.Keys)), v, capacity)
  {
    var low := Lowest(ix.byHeight.Keys);
    WithoutAgrees(ix, low);
    WithoutContents(ix, low);
    assert Without(ix, low).byHeight.Keys == ix.byHeight.Keys - {low};
  }

  lemma DoneEvicting(ix: Index, v: Window, capacity: nat)
    requires Evicting(ix, v, capacity) && |ix.byHeight.Keys| <= capacity
    ensures Agree(ix) && Contents(ix) == Trim(v, capacity)
  {
  }

  /** What an insert leaves: the new record, and records that were there; each at its own height. */
  lemma PutKeys(before: Index, after: Index, r: Record, capacity: nat, x: Hash)
    requires Agree(before) && Agree(after) && Contents(after) == Put(Contents(before), r, capacity)
    requires x in after.byHash
    ensures (x == r.hash && after.byHash[x] == r) || (x in before.byHash && after.byHash[x] == before.byHash[x])
  {
    CachedIsInWindow(after, x);
    var h := after.byHash[x].height;
    if h != r.height {
      assert Contents(after)[h] == Contents(before)[h];
      CachedIsInWindow(before, x);
      assert before.byHash[before.byHeight[h]].hash == before.byHeight[h];
    }
  }

  // ---- The cache -----------------------------------------------------------------------------------------------

  class BlockRecordCache {
    const capacity: nat
    var byHash: map<Hash, Record>
    var byHeight: map<nat, Hash>
    var summaries: map<nat, Summary>

    ghost function Ix(): Index
      reads this
    {
      Index(byHash, byHeight, summaries)
    }

    ghost predicate Valid()
      reads this
    {
      capacity > 0 && Agree(Ix()) && |byHeight.Keys| <= capacity
    }

    ghost function View(): Window
      reads this
      requires Agree(Ix())
    {
      Contents(Ix())
    }

    constructor (capacity: nat)
      ensures Valid() && View() == map[] && this.capacity == if capacity == 0 then 1 else capacity
    {
      this.capacity := if capacity < 1 then 1 else capacity;
      byHash, byHeight, summaries := map[], map[], map[];
    }

    /** Insert a record; a new record at a known height replaces the old one there. */
    method Insert(r: Record)
      requires Valid() && (r.hash in byHash ==> byHash[r.hash].height == r.height)
      modifies `byHash, `byHeight, `summaries
      ensures Valid() && View() == Put(old(View()), r, capacity)
      ensures forall x :: x in byHash ==>
                (x == r.hash && byHash[x] == r) || (x in old(byHash) && byHash[x] == old(byHash)[x])
    {
      hide Agree, Contents, Trim, Evicting, Lowest;
      ghost var v := View()[r.height := r];
      SetAgrees(Ix(), r);
      StartEvicting(Ix(), r, capacity);
      if r.height in byHeight && byHeight[r.height] != r.hash {
        byHash := byHash - {byHeight[r.height]};
      }
      byHeight := byHeight[r.height := r.hash];
      summaries := if r.summary.Some? then summaries[r.height := r.summary.value] else summaries - {r.height};
      byHash := byHash[r.hash := r];
      assert Ix() == Set(old(Ix()), r);
      while |byHeight.Keys| > capacity
        invariant Evicting(Ix(), v, capacity)
        decreases |byHeight.Keys|
      {
        EvictOne(Ix(), v, capacity);
        var low := LowestHeight();
        var hash := byHeight[low];
        ghost var before := byHeight.Keys;
        byHeight := byHeight - {low};
        byHash := byHash - {hash};
        summaries := summaries - {low};
        assert byHeight.Keys == before - {low};
      }
      DoneEvicting(Ix(), v, capacity);
      forall x | x in byHash
        ensures (x == r.hash && byHash[x] == r) || (x in old(byHash) && byHash[x] == old(byHash)[x])
      {
        PutKeys(old(Ix()), Ix(), r, capacity, x);
      }
    }

    /** The first height of the ordered index. */
    method LowestHeight() returns (low: nat)
      requires byHeight.Keys != {}
      ensures low == Lowest(byHeight.Keys)
    {
      LowestExists(byHeight.Keys);
      low :| low in byHeight.Keys && forall h :: h in byHeight.Keys ==> low <= h;
    }

    function Get(hash: Hash): (r: Option<Record>)
      reads this
      requires Valid()
      ensures r.None? ==> forall h :: h in View() ==> View()[h].hash != hash
      ensures r.Some? ==> r.value.hash == hash && r.value.height in View() && View()[r.value.height] == r.value
    {
      CachedIsInWindow(Ix(), hash);
      if hash in byHash then Some(byHash[hash]) else None
    }

    function GetByHeight(height: nat): (r: Option<Record>)
      reads this
      requires Valid()
      ensures r == if height in View() then Some(View()[height]) else None
    {
      if height in byHeight && byHeight[height] in byHash then Some(byHash[byHeight[height]]) else None
    }

    /** The most recent cached summary at or below a height. */
    method SubEpochSummaryAtOrBelow(height: nat) returns (r: Option<(nat, Summary)>)
      requires Valid()
      ensures r.None? ==> forall h :: h in View() && h <= height ==> View()[h].summary.None?
      ensures r.Some? ==> r.value.0 <= height && r.value.0 in View() && View()[r.value.0].summary == Some(r.value.1)
      ensures r.Some? ==> forall h :: h in View() && r.value.0 < h <= height ==> View()[h].summary.None?
    {
      SummariesAreWindows(Ix());
      hide Agree, Contents;
      var h: int := height;
      while h >= 0 && h !in summaries
        invariant -1 <= h <= height
        invariant forall x :: h < x <= height ==> x !in summaries
      {
        h := h - 1;
      }
      r := if h < 0 then None else Some((h, summaries[h]));
    }
  }
}
