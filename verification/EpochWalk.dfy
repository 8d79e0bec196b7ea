/**
 The walks below a block when the difficulty is next adjusted: down to the last sub-epoch boundary, and at
 the turn of an epoch to the transaction blocks before the previous epoch's summary. A window of as many
 records as `DifficultyRecordDepth` says answers them as the whole history does.
 */
module EpochWalk {
  import opened Arithmetic
  import opened Coins
  import opened RecordWalk
  import opened RecordRepair

  datatype WalkError = Missing | TooFar | NoSummary

  type Walked = Result<Record, WalkError>

  // ---- Records of one chain ---------------------------------------------------------------------------------

  ghost predicate Line(chain: seq<Record>) {
    && (forall h :: 0 <= h < |chain| ==> chain[h].height == h)
    && (forall h :: 0 < h < |chain| ==> chain[h].prev == chain[h - 1].hash)
  }

  /** Of the chain, `blocks` holds exactly the records from `low` up; it does not hold the parent of genesis. */
  ghost predicate Window(blocks: map<Hash, Record>, chain: seq<Record>, low: nat) {
    && (forall h :: 0 <= h < |chain| ==> (chain[h].hash in blocks <==> low <= h))
    && (forall h :: low <= h < |chain| ==> blocks[chain[h].hash] == chain[h])
    && (chain != [] ==> chain[0].prev !in blocks)
  }

  lemma Parent(blocks: map<Hash, Record>, chain: seq<Record>, low: nat, h: nat)
    requires Line(chain) && Window(blocks, chain, low) && h < |chain|
    ensures chain[h].prev in blocks <==> h > 0 && low <= h - 1
    ensures h > 0 && low <= h - 1 ==> blocks[chain[h].prev] == chain[h - 1]
  {
    if h > 0 {
      assert chain[h].prev == chain[h - 1].hash;
    }
  }

  // ---- Down to the sub-epoch boundary ----------------------------------------------------------------------------

  /** The highest record from `low` up to `top` that includes a summary; -1 if none does. */
  function LastSummary(chain: seq<Record>, low: nat, top: int): (r: int)
    requires top < |chain|
    ensures r == -1 || (low <= r <= top && chain[r].summary.Some?)
    ensures forall h :: low <= h <= top && r < h ==> chain[h].summary.None?
    decreases top
  {
    if top < low then -1 else if chain[top].summary.Some? then top else LastSummary(chain, low, top - 1)
  }

  /** Whether a sub-epoch and an epoch can finish, read off the chain with nothing held below `low`. */
  function FinishAt(c: Constants, chain: seq<Record>, low: nat, height: nat, open: bool): Result<(bool, bool), WalkError>
    requires Sane(c) && height < |chain|
  {
    if height + 1 < c.subEpochBlocks || !open then Ok((false, false))
    else if (height + 1) % c.subEpochBlocks > 1 then
      var floor := RoundDown(height, c.subEpochBlocks);
      var s := LastSummary(chain, floor, height - 1);
      if low > (if s >= 0 then s else floor) then Err(Missing)
      else if s >= 0 then Ok((false, false))
      else Ok((true, CanBeFirstInEpoch(c, height + 1)))
    else Ok((true, CanBeFirstInEpoch(c, height + 1)))
  }

  lemma Remainder(q: nat, step: nat, k: nat)
    requires k < step
    ensures (q * step + k) % step == k && RoundDown(q * step + k, step) == q * step
  {
    var x := q * step + k;
    var y := x / step;
    assert x == step * y + x % step;
    if y < q {
      MulGrows(y + 1, q, step);
    } else if y > q {
      MulGrows(q + 1, y, step);
    }
  }

  lemma Inside(height: nat, step: nat)
    requires step > 0 && (height + 1) % step > 1
    ensures RoundDown(height, step) < height
    ensures forall h :: RoundDown(height, step) <= h <= height ==> (h % step == 0 <==> h == RoundDown(height, step))
  {
    var q, k := height / step, height % step;
    assert height == q * step + k;
    if k == 0 {
      AfterMultiple(q, step);
    }
    forall h | RoundDown(height, step) <= h <= height
      ensures h % step == 0 <==> h == RoundDown(height, step)
    {
      Remainder(q, step, h - q * step);
    }
  }

  lemma AfterMultiple(q: nat, step: nat)
    requires step > 0
    ensures (q * step + 1) % step <= 1
  {
    if step > 1 {
      Remainder(q, step, 1);
    }
  }

  /** The walk itself. `open` says the block has no deficit and includes no summary. */
  method CanFinish(c: Constants, blocks: map<Hash, Record>, height: nat, prevHash: Hash, open: bool,
                   ghost chain: seq<Record>, ghost low: nat)
    returns (r: Result<(bool, bool), WalkError>)
    requires Sane(c) && Line(chain) && Window(blocks, chain, low) && height < |chain| && prevHash == chain[height].prev
    ensures r == FinishAt(c, chain, low, height, open)
  {
    if height + 1 < c.subEpochBlocks || !open {
      return Ok((false, false));
    }
    if (height + 1) % c.subEpochBlocks > 1 {
      ghost var floor := RoundDown(height, c.subEpochBlocks);
      Inside(height, c.subEpochBlocks);
      Parent(blocks, chain, low, height);
      if prevHash !in blocks {
        return Err(Missing);
      }
      var curr := blocks[prevHash];
      while curr.height % c.subEpochBlocks > 0
        invariant floor <= curr.height < height && low <= curr.height && curr == chain[curr.height]
        invariant LastSummary(chain, floor, height - 1) == LastSummary(chain, floor, curr.height)
        decreases curr.height
      {
        if curr.summary.Some? {
          return Ok((false, false));
        }
        Parent(blocks, chain, low, curr.height);
        if curr.prev !in blocks {
          return Err(Missing);
        }
        curr := blocks[curr.prev];
      }
      if curr.summary.Some? {
        return Ok((false, false));
      }
    }
    return Ok((true, CanBeFirstInEpoch(c, height + 1)));
  }

  // ---- Into the previous epoch ------------------------------------------------------------------------------------

  /** The lowest record from `low` up to `top` that includes a summary; -1 if none does. */
  function FirstSummary(chain: seq<Record>, low: nat, top: int): (r: int)
    requires top < |chain|
    ensures r == -1 || (low <= r <= top && chain[r].summary.Some?)
    ensures forall h :: low <= h <= top && (r == -1 || h < r) ==> chain[h].summary.None?
    decreases top - low
  {
    if top < low then -1 else if chain[low].summary.Some? then low else FirstSummary(chain, low + 1, top)
  }

  /** The height of the `n`-th transaction block at or below `top`; -1 if there are fewer. */
  function NthTx(chain: seq<Record>, top: int, n: nat): (r: int)
    requires -1 <= top < |chain| && n > 0
    ensures -1 <= r <= top && (r >= 0 ==> chain[r].timestamp.Some?)
    decreases top + 1
  {
    if top < 0 then -1
    else if chain[top].timestamp.None? then NthTx(chain, top - 1, n)
    else if n == 1 then top
    else NthTx(chain, top - 1, n - 1)
  }

  function HeightInNextEpoch(c: Constants, height: nat): nat {
    height + 2 * c.maxSubSlotBlocks + c.minBlocksPerChallengeBlock + 5
  }

  function EpochSurpass(c: Constants, height: nat): nat
    requires Sane(c)
  {
    RoundDown(HeightInNextEpoch(c, height), c.epochBlocks)
  }

  /** What the walk from `height` finds with nothing held below `low`. */
  function AnchorAt(c: Constants, chain: seq<Record>, low: nat, height: nat): Walked
    requires Sane(c) && height < |chain| && EpochSurpass(c, height) >= c.epochBlocks
  {
    var surpass := EpochSurpass(c, height) - c.epochBlocks;
    if HeightInNextEpoch(c, height) - EpochSurpass(c, height) >= 5 * c.maxSubSlotBlocks then Err(TooFar)
    else if surpass == 0 then if height == 0 || low == 0 then Ok(chain[0]) else Err(Missing)
    else BeforeSummary(chain, low, height, surpass)
  }

  /** The second transaction block below the first summary from `surpass` up. */
  function BeforeSummary(chain: seq<Record>, low: nat, height: nat, surpass: nat): Walked
    requires height < |chain| && surpass > 0
  {
    if height >= surpass && low >= surpass then Err(Missing)
    else
      var s := FirstSummary(chain, surpass, height);
      if s < 0 then Err(NoSummary)
      else if NthTx(chain, s - 1, 2) < low then Err(Missing)
      else Ok(chain[NthTx(chain, s - 1, 2)])
  }

  /** The second-to-last transaction block before the previous epoch's summary. */
  method SecondToLastTx(c: Constants, blocks: map<Hash, Record>, last: Record, ghost chain: seq<Record>, ghost low: nat)
    returns (r: Walked)
    requires Sane(c) && Line(chain) && Window(blocks, chain, low)
    requires last.height < |chain| && last == chain[last.height] && low <= last.height
    requires EpochSurpass(c, last.height) >= c.epochBlocks
    ensures r == AnchorAt(c, chain, low, last.height)
  {
    var next := HeightInNextEpoch(c, last.height);
    var epoch := next - next % c.epochBlocks;
    var surpass := epoch - c.epochBlocks;
    if next - epoch >= 5 * c.maxSubSlotBlocks {
      return Err(TooFar);
    }
    if surpass == 0 {
      r := ToGenesis(blocks, last, chain, low);
      return;
    }
    r := InPreviousEpoch(blocks, last, surpass, chain, low);
  }

  method InPreviousEpoch(blocks: map<Hash, Record>, last: Record, surpass: nat, ghost chain: seq<Record>, ghost low: nat)
    returns (r: Walked)
    requires Line(chain) && Window(blocks, chain, low) && surpass > 0
    requires last.height < |chain| && last == chain[last.height] && low <= last.height
    ensures r == BeforeSummary(chain, low, last.height, surpass)
  {
    hide FirstSummary, NthTx;
    var byHeight := Collect(blocks, last, surpass, chain, low);
    if byHeight.None? {
      return Err(Missing);
    }
    var found := ScanUp(byHeight.value, surpass, last.height, chain);
    if found.None? {
      return Err(NoSummary);
    }
    r := BackToTx(blocks, byHeight.value[found.value - 1], chain, low);
  }

  method ToGenesis(blocks: map<Hash, Record>, last: Record, ghost chain: seq<Record>, ghost low: nat) returns (r: Walked)
    requires Line(chain) && Window(blocks, chain, low)
    requires last.height < |chain| && last == chain[last.height] && low <= last.height
    ensures r == if last.height == 0 || low == 0 then Ok(chain[0]) else Err(Missing)
  {
    var curr := last;
    while curr.height > 0
      invariant low <= curr.height <= last.height && curr == chain[curr.height]
      decreases curr.height
    {
      Parent(blocks, chain, low, curr.height);
      if curr.prev !in blocks {
        return Err(Missing);
      }
      curr := blocks[curr.prev];
    }
    return Ok(curr);
  }

  /** The records from `last` down to the first below `surpass`, by height. */
  method Collect(blocks: map<Hash, Record>, last: Record, surpass: nat, ghost chain: seq<Record>, ghost low: nat)
    returns (r: Option<map<nat, Record>>)
    requires Line(chain) && Window(blocks, chain, low) && surpass > 0
    requires last.height < |chain| && last == chain[last.height] && low <= last.height
    ensures r.None? <==> last.height >= surpass && low >= surpass
    ensures r.Some? ==> forall h :: h in r.value <==> (if last.height < surpass then h == last.height else surpass - 1 <= h <= last.height)
    ensures r.Some? ==> forall h :: h in r.value ==> r.value[h] == chain[h]
  {
    var curr := last;
    var byHeight := map[curr.height := curr];
    while curr.height >= surpass
      invariant low <= curr.height <= last.height && curr == chain[curr.height]
      invariant last.height < surpass ==> curr == last
      invariant last.height >= surpass ==> curr.height >= surpass - 1
      invariant forall h :: h in byHeight <==> curr.height <= h <= last.height
      invariant forall h :: h in byHeight ==> byHeight[h] == chain[h]
      decreases curr.height
    {
      Parent(blocks, chain, low, curr.height);
      if curr.prev !in blocks {
        return None;
      }
      curr := blocks[curr.prev];
      byHeight := byHeight[curr.height := curr];
    }
    return Some(byHeight);
  }

  /** The first record with a summary from `surpass` up. */
  method ScanUp(byHeight: map<nat, Record>, surpass: nat, top: nat, ghost chain: seq<Record>) returns (r: Option<nat>)
    requires top < |chain| && forall h :: h in byHeight ==> h < |chain| && byHeight[h] == chain[h]
    requires forall h :: h >= surpass ==> (h in byHeight <==> h <= top)
    ensures var s := FirstSummary(chain, surpass, top); r == if s < 0 then None else Some(s)
  {
    var nextHeight := surpass;
    while nextHeight in byHeight && byHeight[nextHeight].summary.None?
      invariant surpass <= nextHeight
      invariant FirstSummary(chain, surpass, top) == FirstSummary(chain, nextHeight, top)
      decreases top + 1 - nextHeight
    {
      nextHeight := nextHeight + 1;
    }
    return if nextHeight in byHeight then Some(nextHeight) else None;
  }

  /** Back from `from` to the second transaction block. */
  method BackToTx(blocks: map<Hash, Record>, from: Record, ghost chain: seq<Record>, ghost low: nat) returns (r: Walked)
    requires Line(chain) && Window(blocks, chain, low)
    requires from.height < |chain| && from == chain[from.height] && low <= from.height
    ensures var t := NthTx(chain, from.height, 2); r == if t < low then Err(Missing) else Ok(chain[t])
  {
    var curr := from;
    var found := if curr.timestamp.Some? then 1 else 0;
    while found < 2
      invariant low <= curr.height <= from.height && curr == chain[curr.height] && found <= 2
      invariant NthTx(chain, from.height, 2) == if found == 2 then curr.height else NthTx(chain, curr.height - 1, 2 - found)
      decreases 2 - found, curr.height
    {
      Parent(blocks, chain, low, curr.height);
      if curr.prev !in blocks {
        return Err(Missing);
      }
      curr := blocks[curr.prev];
      if curr.timestamp.Some? {
        found := found + 1;
      }
    }
    return Ok(curr);
  }

  // ---- The depth covers the walks -------------------------------------------------------------------------------------

  /** The lowest height in a window of `DifficultyRecordDepth` records from `prevHeight` down. */
  function WindowFloor(c: Constants, prevHeight: nat): (low: nat)
    requires Sane(c)
    ensures low <= prevHeight
  {
    DepthFits(c, prevHeight);
    prevHeight + 1 - DifficultyRecordDepth(c, prevHeight)
  }

  /** The turn of an epoch is met before the walk's slack runs into the next one. */
  predicate Roomy(c: Constants) {
    Sane(c) && c.maxSubSlotBlocks > 0 && c.subEpochBlocks + 2 * c.maxSubSlotBlocks + c.minBlocksPerChallengeBlock + 4 <= c.epochBlocks
  }

  /** Four sub-slots below the boundary, and at an epoch's turn below the previous epoch's start, or from genesis. */
  lemma FloorReaches(c: Constants, prevHeight: nat)
    requires Sane(c)
    ensures var low, floor := WindowFloor(c, prevHeight), RoundDown(prevHeight, c.subEpochBlocks);
            var turn := SaturatingSub(EpochSurpass(c, prevHeight), c.epochBlocks);
            && (low == 0 || low + 4 * c.maxSubSlotBlocks <= floor)
            && (CanBeFirstInEpoch(c, prevHeight + 1) ==> low == 0 || low + 4 * c.maxSubSlotBlocks <= turn)
            && (low == 0 || low + 4 * c.maxSubSlotBlocks == floor
                || (CanBeFirstInEpoch(c, prevHeight + 1) && low + 4 * c.maxSubSlotBlocks == turn))
  {
    LowestReadBound(c, prevHeight);
    hide RoundDown, CanBeFirstInEpoch;
  }

  /** At an epoch's turn the walk from the block below uses the same epoch start. */
  lemma SameSurpass(c: Constants, prevHeight: nat)
    requires Roomy(c) && prevHeight > 0 && CanBeFirstInEpoch(c, prevHeight + 1)
    ensures EpochSurpass(c, prevHeight - 1) == EpochSurpass(c, prevHeight) == RoundDown(prevHeight + 1, c.subEpochBlocks)
    ensures prevHeight + 1 >= c.subEpochBlocks ==> EpochSurpass(c, prevHeight) >= c.epochBlocks
  {
    var start := RoundDown(prevHeight + 1, c.subEpochBlocks);
    var q := start / c.epochBlocks;
    assert start == q * c.epochBlocks;
    RoundDownBound(prevHeight + 1, c.subEpochBlocks);
    if prevHeight + 1 >= c.subEpochBlocks {
      MulGrows(1, q, c.epochBlocks);
    }
    hide RoundDown, CanBeFirstInEpoch;
    Remainder(q, c.epochBlocks, HeightInNextEpoch(c, prevHeight) - start);
    Remainder(q, c.epochBlocks, HeightInNextEpoch(c, prevHeight - 1) - start);
  }

  /** With the window, whether a sub-epoch or epoch can finish is what the whole history says. */
  lemma WindowFinishes(c: Constants, chain: seq<Record>, prevHeight: nat, open: bool)
    requires Sane(c) && prevHeight < |chain|
    ensures FinishAt(c, chain, WindowFloor(c, prevHeight), prevHeight, open) == FinishAt(c, chain, 0, prevHeight, open)
    ensures FinishAt(c, chain, 0, prevHeight, open).Ok?
  {
    FloorReaches(c, prevHeight);
    hide WindowFloor, CanBeFirstInEpoch, RoundDown;
  }

  /**
   With the window, the walk into the previous epoch ends as over the whole history, errors included, unless
   the block the history finds lies below the window; then, and only then, a record is missing.
   */
  lemma WindowAnchors(c: Constants, chain: seq<Record>, prevHeight: nat)
    requires Roomy(c) && Line(chain) && 0 < prevHeight < |chain| && CanBeFirstInEpoch(c, prevHeight + 1)
    requires prevHeight + 1 >= c.subEpochBlocks
    ensures EpochSurpass(c, prevHeight - 1) >= c.epochBlocks
    ensures var low, all := WindowFloor(c, prevHeight), AnchorAt(c, chain, 0, prevHeight - 1);
            AnchorAt(c, chain, low, prevHeight - 1) == if all.Ok? && all.value.height < low then Err(Missing) else all
  {
    FloorReaches(c, prevHeight);
    SameSurpass(c, prevHeight);
    hide WindowFloor, CanBeFirstInEpoch, EpochSurpass, FirstSummary, NthTx;
  }

  lemma {:induction false} NthTxReaches(chain: seq<Record>, top: int, n: nat, a: nat, b: nat)
    requires a < b <= top < |chain| && 1 <= n <= 2 && chain[a].timestamp.Some? && chain[b].timestamp.Some?
    ensures NthTx(chain, top, n) >= if n == 1 then b else a
    decreases top
  {
    if top > b {
      if chain[top].timestamp.None? {
        NthTxReaches(chain, top - 1, n, a, b);
      } else if n == 2 {
        NthTxReaches(chain, top - 1, 1, a, b);
      }
    } else if n == 2 {
      NthTxAbove(chain, b - 1, a);
    }
  }

  lemma {:induction false} NthTxAbove(chain: seq<Record>, top: int, a: nat)
    requires a <= top < |chain| && chain[a].timestamp.Some?
    ensures NthTx(chain, top, 1) >= a
    decreases top
  {
    if top > a {
      NthTxAbove(chain, top - 1, a);
    }
  }

  /**
   Two transaction blocks among the last four sub-slots of blocks before the previous epoch's start are
   enough: the window then answers exactly as the whole history, at every height where an epoch turns.
   */
  lemma WindowSuffices(c: Constants, chain: seq<Record>, prevHeight: nat, a: nat, b: nat)
    requires Roomy(c) && Line(chain) && 0 < prevHeight < |chain| && CanBeFirstInEpoch(c, prevHeight + 1)
    requires prevHeight + 1 >= c.subEpochBlocks
    requires var surpass := SaturatingSub(EpochSurpass(c, prevHeight - 1), c.epochBlocks);
             surpass > 0 ==> SaturatingSub(surpass, 4 * c.maxSubSlotBlocks) <= a < b < surpass
                             && b < |chain| && chain[a].timestamp.Some? && chain[b].timestamp.Some?
    ensures EpochSurpass(c, prevHeight - 1) >= c.epochBlocks
    ensures AnchorAt(c, chain, WindowFloor(c, prevHeight), prevHeight - 1) == AnchorAt(c, chain, 0, prevHeight - 1)
    ensures AnchorAt(c, chain, 0, prevHeight - 1) != Err(Missing)
  {
    WindowAnchors(c, chain, prevHeight);
    FloorReaches(c, prevHeight);
    SameSurpass(c, prevHeight);
    hide WindowFloor, CanBeFirstInEpoch, EpochSurpass, FirstSummary, NthTx, BeforeSummary, RoundDown;
    var surpass := EpochSurpass(c, prevHeight - 1) - c.epochBlocks;
    if surpass > 0 {
      FoundAbove(chain, prevHeight - 1, surpass, a, b);
    }
  }

  lemma FoundAbove(chain: seq<Record>, height: nat, surpass: nat, a: nat, b: nat)
    requires Line(chain) && height < |chain| && a < b < surpass && b < |chain|
    requires chain[a].timestamp.Some? && chain[b].timestamp.Some?
    ensures BeforeSummary(chain, 0, height, surpass) != Err(Missing)
    ensures BeforeSummary(chain, 0, height, surpass).Ok? ==> BeforeSummary(chain, 0, height, surpass).value.height >= a
  {
    var s := FirstSummary(chain, surpass, height);
    if s >= 0 {
      NthTxReaches(chain, s - 1, 2, a, b);
    }
  }

  // ---- The window is the plain walk ------------------------------------------------------------------------------------

  /** The records a walk of that depth collects are the window. */
  lemma WalkIsWindow(c: Constants, w: Source, store: set<Hash>, chain: seq<Record>)
    requires Sane(c) && Sealed(w) && Line(chain) && chain != [] && chain[0].prev !in store
    requires forall h :: 0 <= h < |chain| ==> chain[h].hash in store && w(chain[h].hash) == chain[h]
    ensures var top := |chain| - 1;
            Window(RecordsOf(w, StoreWalk(w, store, chain[top].hash, DifficultyRecordDepth(c, top))), chain, WindowFloor(c, top))
  {
    var top := |chain| - 1;
    DepthFits(c, top);
    var n := DifficultyRecordDepth(c, top);
    WalkDown(w, store, chain, top, n);
    hide DifficultyRecordDepth, StoreWalk;
    forall h | 0 <= h < |chain|
      ensures chain[h].hash in StoreWalk(w, store, chain[top].hash, n) <==> top + 1 - n <= h
    {
      InWalk(w, chain, StoreWalk(w, store, chain[top].hash, n), top, h);
    }
  }

  /** Records of different heights have different hashes. */
  lemma InWalk(w: Source, chain: seq<Record>, walk: seq<Hash>, top: nat, h: nat)
    requires Line(chain) && top == |chain| - 1 && h <= top && |walk| <= top + 1
    requires forall j :: 0 <= j < |chain| ==> w(chain[j].hash) == chain[j]
    requires forall i :: 0 <= i < |walk| ==> walk[i] == chain[top - i].hash
    ensures chain[h].hash in walk <==> top + 1 - |walk| <= h
  {
    if chain[h].hash in walk {
      var i :| 0 <= i < |walk| && walk[i] == chain[h].hash;
      assert chain[top - i].height == h;
    }
    if top + 1 - |walk| <= h {
      assert walk[top - h] == chain[h].hash;
    }
  }

  lemma {:induction false} WalkDown(w: Source, store: set<Hash>, chain: seq<Record>, top: nat, n: nat)
    requires Sealed(w) && Line(chain) && top < |chain| && n <= top + 1
    requires forall h :: 0 <= h < |chain| ==> chain[h].hash in store && w(chain[h].hash) == chain[h]
    ensures var walk := StoreWalk(w, store, chain[top].hash, n);
            |walk| == n && forall i :: 0 <= i < n ==> walk[i] == chain[top - i].hash
    decreases n
  {
    if n > 0 && top > 0 {
      WalkDown(w, store, chain, top - 1, n - 1);
      WalkShift(w, store, chain[top - 1].hash, 0, 1, n - 1);
    }
  }

  // ---- On the main network ---------------------------------------------------------------------------------------------

  const MAINNET: Constants := Constants(384, 4608, 128, 16)

  lemma MainnetDepth(prevHeight: nat, floor: nat)
    requires floor % 384 == 0 && floor <= prevHeight < floor + 384
    requires (prevHeight + 1 - (prevHeight + 1) % 384) % 4608 != 0
    ensures DifficultyRecordDepth(MAINNET, prevHeight) == prevHeight - SaturatingSub(floor, 512) + 1
  {
    Remainder(floor / 384, 384, prevHeight - floor);
    hide RoundDown;
  }

  lemma MainnetTurnDepth(prevHeight: nat, turn: nat)
    requires turn % 4608 == 0 && turn > 0 && turn <= prevHeight + 1 < turn + 384
    ensures DifficultyRecordDepth(MAINNET, prevHeight) == prevHeight - SaturatingSub(turn - 4608, 512) + 1
  {
    var k := turn / 4608;
    Remainder(12 * k, 384, prevHeight + 1 - turn);
    Remainder(k, 4608, prevHeight + 277 - turn);
    RoundDownBound(prevHeight, 384);
    hide RoundDown;
  }

  /** The depths at a late offset, on a boundary, at two turns of an epoch and the deepest; the network is roomy. */
  lemma MainnetDepths()
    ensures Roomy(MAINNET) && ConsensusWalkWindow(MAINNET) == 5760
    ensures DifficultyRecordDepth(MAINNET, 9_161_852) == 893 && DifficultyRecordDepth(MAINNET, 9_161_472) == 513
    ensures DifficultyRecordDepth(MAINNET, 9_215) == 5_120 && DifficultyRecordDepth(MAINNET, 4_607) == 4_608
    ensures DifficultyRecordDepth(MAINNET, 9_216_382) == 5_503
  {
    hide DifficultyRecordDepth;
    MainnetDepth(9_161_852, 9_161_472);
    MainnetDepth(9_161_472, 9_161_472);
    MainnetTurnDepth(9_215, 9_216);
    MainnetTurnDepth(4_607, 4_608);
    MainnetTurnDepth(9_216_382, 9_216_000);
  }
}
