/**
 The order of one peer's untrusted lane: highest advertised fee-per-cost first, compared by cross
 multiplication, entries without a cost last, and arrival order among equals.
 */
module TxOrder {
  import opened Arithmetic

  type Peer = nat
  type Bundle = nat

  /** One untrusted entry with the fee and cost its peer advertised. */
  datatype Entry = Entry(bundle: Bundle, fee: nat, cost: nat)

  datatype Ordering = Less | Equal | Greater

  function Compare(x: nat, y: nat): Ordering {
    if x < y then Less else if x == y then Equal else Greater
  }

  function FeePerCostDesc(a: Entry, b: Entry): Ordering {
    if a.cost == 0 && b.cost == 0 then Equal
    else if a.cost == 0 then Greater
    else if b.cost == 0 then Less
    else Compare(b.fee * a.cost, a.fee * b.cost)
  }

  /** `a` may stand before `b`. */
  predicate NotAfter(a: Entry, b: Entry) {
    FeePerCostDesc(a, b) != Greater
  }

  predicate SameRank(a: Entry, b: Entry) {
    FeePerCostDesc(a, b) == Equal
  }

  predicate Ordered(q: seq<Entry>) {
    forall i, j :: 0 <= i < j < |q| ==> NotAfter(q[i], q[j])
  }

  /** The entries of `q` that rank with `c`, in order. */
  function RankedWith(q: seq<Entry>, c: Entry): seq<Entry> {
    if q == [] then []
    else RankedWith(q[..|q| - 1], c) + if SameRank(q[|q| - 1], c) then [q[|q| - 1]] else []
  }

  /** The first entry that must stand after `e`, or the end. */
  function InsertAt(q: seq<Entry>, e: Entry): (pos: nat)
    ensures pos <= |q|
    ensures forall i :: 0 <= i < pos ==> NotAfter(q[i], e)
    ensures pos < |q| ==> !NotAfter(q[pos], e)
  {
    if q == [] then 0
    else
      var p := InsertAt(q[..|q| - 1], e);
      if p < |q| - 1 then p else if NotAfter(q[|q| - 1], e) then |q| else |q| - 1
  }

  function Inserted(q: seq<Entry>, e: Entry): seq<Entry> {
    q[..InsertAt(q, e)] + [e] + q[InsertAt(q, e)..]
  }

  /** The lane that results from a list of arrivals. */
  function LaneOf(arrivals: seq<Entry>): seq<Entry> {
    if arrivals == [] then []
    else Inserted(LaneOf(arrivals[..|arrivals| - 1]), arrivals[|arrivals| - 1])
  }

  // ---- The comparator is a total preorder -------------------------------------------------------

  lemma FlipCompare(a: Entry, b: Entry)
    ensures FeePerCostDesc(a, b) == Less <==> FeePerCostDesc(b, a) == Greater
    ensures FeePerCostDesc(a, b) == Equal <==> FeePerCostDesc(b, a) == Equal
    ensures NotAfter(a, b) || NotAfter(b, a)
  {
  }

  /** Cross multiplication is transitive: with positive costs, fa/ca >= fb/cb >= fc/cc. */
  lemma CrossTransitive(fa: nat, ca: nat, fb: nat, cb: nat, fc: nat, cc: nat)
    requires ca > 0 && cb > 0 && cc > 0
    requires fb * ca <= fa * cb && fc * cb <= fb * cc
    ensures fc * ca <= fa * cc
    ensures fb * ca < fa * cb || fc * cb < fb * cc ==> fc * ca < fa * cc
  {
    MulGrows(fc * cb, fb * cc, ca);
    MulGrows(fb * ca, fa * cb, cc);
    assert fc * cb * ca == fc * ca * cb;
    assert fb * cc * ca == fb * ca * cc;
    assert fa * cb * cc == fa * cc * cb;
    MulCancel(fc * ca, fa * cc, cb);
  }

  lemma MulCancel(x: nat, y: nat, k: nat)
    requires k > 0
    ensures x * k <= y * k ==> x <= y
    ensures x * k < y * k ==> x < y
  {
    if x > y {
      MulGrows(y, x, k);
    } else if x == y {
      assert x * k == y * k;
    }
  }

  /** The order is transitive, and equal ranks are interchangeable. */
  lemma NotAfterTransitive(a: Entry, b: Entry, c: Entry)
    requires NotAfter(a, b) && NotAfter(b, c)
    ensures NotAfter(a, c)
    ensures SameRank(a, c) ==> SameRank(a, b) && SameRank(b, c)
  {
    if a.cost > 0 && b.cost > 0 && c.cost > 0 {
      CrossTransitive(a.fee, a.cost, b.fee, b.cost, c.fee, c.cost);
    }
  }

  lemma SameRankTransitive(a: Entry, b: Entry, c: Entry)
    requires SameRank(a, b) && SameRank(b, c)
    ensures SameRank(a, c)
  {
    FlipCompare(a, b);
    FlipCompare(b, c);
    FlipCompare(a, c);
    NotAfterTransitive(a, b, c);
    NotAfterTransitive(c, b, a);
  }

  // ---- A lane is the stable sort of its arrivals -----------------------------------------------------

  lemma InsertedIsOrdered(q: seq<Entry>, e: Entry)
    requires Ordered(q)
    ensures Ordered(Inserted(q, e))
  {
    var p, r := InsertAt(q, e), Inserted(q, e);
    forall i, j | 0 <= i < j < |r|
      ensures NotAfter(r[i], r[j])
    {
      if i == p {
        FlipCompare(q[p], e);
        if j > p + 1 {
          assert r[j] == q[j - 1] && NotAfter(q[p], q[j - 1]);
          NotAfterTransitive(e, q[p], q[j - 1]);
        }
      } else if j == p {
        assert r[i] == q[i];
      } else {
        assert r[i] == q[if i < p then i else i - 1] && r[j] == q[if j < p then j else j - 1];
      }
    }
  }

  lemma {:induction false} RankedWithConcat(a: seq<Entry>, b: seq<Entry>, c: Entry)
    ensures RankedWith(a + b, c) == RankedWith(a, c) + RankedWith(b, c)
    decreases |b|
  {
    if b == [] {
      assert a + b == a;
    } else {
      var m := |b| - 1;
      RankedWithConcat(a, b[..m], c);
      assert (a + b)[..|a + b| - 1] == a + b[..m];
    }
  }

  lemma {:induction false} NoneRanked(q: seq<Entry>, c: Entry)
    requires forall i :: 0 <= i < |q| ==> !SameRank(q[i], c)
    ensures RankedWith(q, c) == []
    decreases |q|
  {
    if q != [] {
      NoneRanked(q[..|q| - 1], c);
    }
  }

  /** No entry from the insertion point on ranks with the new one. */
  lemma BackRanksLower(q: seq<Entry>, e: Entry, c: Entry, i: nat)
    requires Ordered(q) && SameRank(e, c) && InsertAt(q, e) <= i < |q|
    ensures !SameRank(q[i], c)
  {
    hide FeePerCostDesc;
    var p := InsertAt(q, e);
    if SameRank(q[i], c) {
      FlipCompare(e, c);
      SameRankTransitive(q[i], c, e);
      if i > p {
        NotAfterTransitive(q[p], q[i], e);
      }
      assert false;
    }
  }

  /** A new entry joins the end of its rank and disturbs no other rank. */
  lemma InsertedIsStable(q: seq<Entry>, e: Entry, c: Entry)
    requires Ordered(q)
    ensures RankedWith(Inserted(q, e), c) == RankedWith(q, c) + if SameRank(e, c) then [e] else []
  {
    hide FeePerCostDesc, SameRank, NotAfter;
    var p := InsertAt(q, e);
    var front, back := q[..p], q[p..];
    assert q == front + back;
    RankedWithConcat(front, back, c);
    RankedWithConcat(front + [e], back, c);
    RankedWithConcat(front, [e], c);
    assert [e][..0] == [];
    if SameRank(e, c) {
      forall i | 0 <= i < |back|
        ensures !SameRank(back[i], c)
      {
        BackRanksLower(q, e, c, p + i);
      }
      NoneRanked(back, c);
    }
  }

  lemma {:induction false} LaneIsStableSort(arrivals: seq<Entry>, c: Entry)
    ensures Ordered(LaneOf(arrivals))
    ensures RankedWith(LaneOf(arrivals), c) == RankedWith(arrivals, c)
    ensures multiset(LaneOf(arrivals)) == multiset(arrivals)
    decreases |arrivals|
  {
    assert Ordered([]);
    hide FeePerCostDesc, SameRank, NotAfter, Ordered, Inserted, InsertAt;
    if arrivals != [] {
      var m := |arrivals| - 1;
      var init, e := arrivals[..m], arrivals[m];
      LaneIsStableSort(init, c);
      InsertedIsOrdered(LaneOf(init), e);
      InsertedIsStable(LaneOf(init), e, c);
      InsertedHolds(LaneOf(init), e);
      assert arrivals == init + [e];
    }
  }

  lemma InsertedHolds(q: seq<Entry>, e: Entry)
    ensures multiset(Inserted(q, e)) == multiset(q) + multiset{e}
  {
    var p := InsertAt(q, e);
    assert q == q[..p] + q[p..];
  }

  // ---- The order in fees and costs -------------------------------------------------------------------------

  /** Two entries advertise the same fee per cost, or both no cost. */
  predicate SameFee(a: Entry, b: Entry) {
    if a.cost == 0 || b.cost == 0 then a.cost == b.cost else a.fee * b.cost == b.fee * a.cost
  }

  /** No entry stands before one that advertises more per cost, and none without a cost before one with. */
  predicate HighestFirst(q: seq<Entry>) {
    forall i, j :: 0 <= i < j < |q| ==>
      && (q[i].cost == 0 ==> q[j].cost == 0)
      && (q[i].cost > 0 && q[j].cost > 0 ==> q[i].fee * q[j].cost >= q[j].fee * q[i].cost)
  }

  /** The entries that advertise the same as `c`, in order. */
  function PaidLike(q: seq<Entry>, c: Entry): seq<Entry> {
    if q == [] then []
    else PaidLike(q[..|q| - 1], c) + if SameFee(q[|q| - 1], c) then [q[|q| - 1]] else []
  }

  /**
   `lane` is `arrivals`, highest fee per cost first, entries without a cost last, and arrival order among
   those that advertise the same.
   */
  ghost predicate ByFee(lane: seq<Entry>, arrivals: seq<Entry>) {
    && HighestFirst(lane) && multiset(lane) == multiset(arrivals)
    && forall c :: PaidLike(lane, c) == PaidLike(arrivals, c)
  }

  lemma {:induction false} RankIsFee(q: seq<Entry>, c: Entry)
    ensures RankedWith(q, c) == PaidLike(q, c)
    decreases |q|
  {
    if q != [] {
      RankIsFee(q[..|q| - 1], c);
    }
  }

  /** A lane in plain terms. */
  lemma LaneByFee(arrivals: seq<Entry>)
    ensures ByFee(LaneOf(arrivals), arrivals)
  {
    hide LaneOf, RankedWith, PaidLike;
    LaneIsStableSort(arrivals, Entry(0, 0, 0));
    forall c
      ensures PaidLike(LaneOf(arrivals), c) == PaidLike(arrivals, c)
    {
      LaneIsStableSort(arrivals, c);
      RankIsFee(LaneOf(arrivals), c);
      RankIsFee(arrivals, c);
    }
    OrderedIsHighestFirst(LaneOf(arrivals));
  }

  lemma OrderedIsHighestFirst(q: seq<Entry>)
    requires Ordered(q)
    ensures HighestFirst(q)
  {
    forall i, j | 0 <= i < j < |q|
      ensures q[i].cost == 0 ==> q[j].cost == 0
      ensures q[i].cost > 0 && q[j].cost > 0 ==> q[i].fee * q[j].cost >= q[j].fee * q[i].cost
    {
      assert NotAfter(q[i], q[j]);
    }
  }
}
