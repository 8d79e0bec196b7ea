/**
 Deficit round robin over the untrusted lanes, as functions of the scheduler state: one pop, a run
 of pops, and what every run serves to each peer.
 */
module Drr {
  import opened Arithmetic
  import opened Coins
  import opened TxOrder

  datatype Lane = Lane(queue: seq<Entry>, deficit: nat)

  /** Lanes by peer, the round-robin order and its cursor; `fallback` prices entries without a cost. */
  datatype State = State(lanes: map<Peer, Lane>, order: seq<Peer>, cursor: nat, fallback: nat)

  datatype Served = Served(peer: Peer, entry: Entry)

  datatype Popped = Empty | Popped(served: Served, rest: State)

  function Price(fallback: nat, e: Entry): nat {
    if e.cost > 0 then e.cost else fallback
  }

  predicate GoodLane(l: Lane) {
    (l.queue == [] ==> l.deficit == 0) && l.deficit <= U64_MAX
  }

  ghost predicate Good(s: State) {
    && Distinct(s.order) && (forall p :: p in s.order <==> p in s.lanes)
    && (if s.order == [] then s.cursor == 0 else s.cursor < |s.order|)
    && 1 <= s.fallback <= U64_MAX
    && (forall p :: p in s.lanes ==> GoodLane(s.lanes[p]))
    && (forall p, i :: p in s.lanes && 0 <= i < |s.lanes[p].queue| ==> s.lanes[p].queue[i].cost <= U64_MAX)
  }

  predicate Waiting(s: State, p: Peer) {
    p in s.lanes && s.lanes[p].queue != []
  }

  function TopPrice(s: State, p: Peer): nat
    requires Waiting(s, p)
  {
    Price(s.fallback, s.lanes[p].queue[0])
  }

  predicate CanPay(s: State, p: Peer) {
    Waiting(s, p) && s.lanes[p].deficit >= TopPrice(s, p)
  }

  /** `i` modulo `n`, for the `i` a walk reaches. */
  function Wrap(i: nat, n: nat): (r: nat)
    requires i < 2 * n
  {
    if i < n then i else i - n
  }

  lemma WrapIsMod(i: nat, n: nat)
    requires i < 2 * n
    ensures Wrap(i, n) == i % n
  {
    if i >= n {
      ModShift(i - n, n);
    }
  }

  lemma ModShift(j: nat, n: nat)
    requires j < n
    ensures (j + n) % n == j
  {
  }

  /** The peer at an offset from the cursor. */
  function PeerAt(s: State, offset: nat): Peer
    requires s.cursor < |s.order| && offset < |s.order|
  {
    s.order[Wrap(s.cursor + offset, |s.order|)]
  }

  /** The first position in the walk, from `offset` on, whose peer can pay for its top entry. */
  function Scan(s: State, offset: nat): (r: int)
    requires s.cursor < |s.order| && offset <= |s.order|
    ensures -1 <= r < |s.order|
    ensures r >= 0 ==> CanPay(s, s.order[r])
    ensures r < 0 ==> forall k :: offset <= k < |s.order| ==> !CanPay(s, PeerAt(s, k))
    decreases |s.order| - offset
  {
    if offset == |s.order| then -1
    else if CanPay(s, PeerAt(s, offset)) then Wrap(s.cursor + offset, |s.order|)
    else Scan(s, offset + 1)
  }

  /** The lowest top price among the first `k` peers of the walk; -1 when none is waiting. */
  function Lowest(s: State, k: nat): (m: int)
    requires s.cursor < |s.order| && k <= |s.order|
    ensures m >= -1
    ensures m < 0 <==> forall i :: 0 <= i < k ==> !Waiting(s, PeerAt(s, i))
    ensures forall i :: 0 <= i < k && Waiting(s, PeerAt(s, i)) ==> m <= TopPrice(s, PeerAt(s, i))
    ensures m >= 0 ==> exists i :: 0 <= i < k && Waiting(s, PeerAt(s, i)) && m == TopPrice(s, PeerAt(s, i))
  {
    if k == 0 then -1
    else
      var m := Lowest(s, k - 1);
      if !Waiting(s, PeerAt(s, k - 1)) then m
      else
        var t := TopPrice(s, PeerAt(s, k - 1));
        if m < 0 || t < m then t else m
  }

  /** Add `amount` to the deficit of every peer with queued entries. */
  function Refilled(s: State, amount: nat): State {
    s.(lanes := map p | p in s.lanes ::
         if s.lanes[p].queue == [] then s.lanes[p]
         else s.lanes[p].(deficit := SaturatingAdd(s.lanes[p].deficit, amount)))
  }

  /** Serve the top entry of the peer at `idx` and move the cursor past it. */
  function Take(s: State, idx: nat): Popped
    requires idx < |s.order| && CanPay(s, s.order[idx])
  {
    var p := s.order[idx];
    var l := s.lanes[p];
    var rest := l.queue[1..];
    var left := l.deficit - TopPrice(s, p);
    Popped(Served(p, l.queue[0]),
           s.(lanes := s.lanes[p := Lane(rest, if rest == [] then 0 else left)], cursor := Wrap(idx + 1, |s.order|)))
  }

  // ---- A walk meets every peer, and two passes suffice ------------------------------------------

  lemma WalkMeetsAll(s: State, p: Peer)
    requires Good(s) && p in s.lanes
    ensures s.order != [] && exists k :: 0 <= k < |s.order| && PeerAt(s, k) == p
  {
    var j :| 0 <= j < |s.order| && s.order[j] == p;
    var k := if j >= s.cursor then j - s.cursor else j + |s.order| - s.cursor;
    assert PeerAt(s, k) == p;
  }

  lemma ScanIsComplete(s: State)
    requires Good(s) && s.order != [] && Scan(s, 0) < 0
    ensures forall p :: !CanPay(s, p)
  {
    forall p
      ensures !CanPay(s, p)
    {
      if p in s.lanes {
        WalkMeetsAll(s, p);
      }
    }
  }

  lemma RefilledIsGood(s: State, amount: nat)
    requires Good(s)
    ensures Good(Refilled(s, amount))
  {
  }

  lemma ScanHits(s: State, p: Peer)
    requires Good(s) && CanPay(s, p)
    ensures s.order != [] && Scan(s, 0) >= 0
  {
    WalkMeetsAll(s, p);
  }

  lemma LowestIsTop(s: State) returns (p: Peer)
    requires s.cursor < |s.order| && Lowest(s, |s.order|) >= 0
    ensures Waiting(s, p) && Lowest(s, |s.order|) == TopPrice(s, p)
  {
    var i :| 0 <= i < |s.order| && Waiting(s, PeerAt(s, i)) && Lowest(s, |s.order|) == TopPrice(s, PeerAt(s, i));
    p := PeerAt(s, i);
  }

  /** After a fruitless pass and a refill by the lowest top price, some peer can pay. */
  lemma RefillUnblocks(s: State)
    requires Good(s) && s.order != [] && Lowest(s, |s.order|) >= 0
    ensures Scan(Refilled(s, Lowest(s, |s.order|)), 0) >= 0
  {
    var p := LowestIsTop(s);
    hide Scan, Lowest, Refilled, CanPay;
    RefillAffords(s, p);
    RefilledIsGood(s, TopPrice(s, p));
    ScanHits(Refilled(s, TopPrice(s, p)), p);
  }

  lemma RefillAffords(s: State, p: Peer)
    requires Good(s) && Waiting(s, p)
    ensures CanPay(Refilled(s, TopPrice(s, p)), p)
  {
    assert s.lanes[p].queue[0].cost <= U64_MAX;
  }

  /** One pop: serve the first peer that can pay, refilling once if none can. */
  ghost function Pop(s: State): Popped
    requires Good(s)
  {
    if s.order == [] then Empty
    else if Scan(s, 0) >= 0 then Take(s, Scan(s, 0))
    else if Lowest(s, |s.order|) < 0 then Empty
    else
      RefillUnblocks(s);
      var r := Refilled(s, Lowest(s, |s.order|));
      Take(r, Scan(r, 0))
  }

  /** A pop yields nothing exactly when nobody is waiting. */
  lemma PopIsEmpty(s: State)
    requires Good(s)
    ensures Pop(s).Empty? <==> forall p :: !Waiting(s, p)
  {
    if s.order != [] && Scan(s, 0) < 0 && Lowest(s, |s.order|) < 0 {
      forall p
        ensures !Waiting(s, p)
      {
        if p in s.lanes {
          WalkMeetsAll(s, p);
        }
      }
    }
    if s.order == [] {
      assert forall p :: p !in s.lanes;
    }
  }

  /** One entry moved from the front of one lane to the served list; nothing else moved. */
  ghost predicate MovesOne(s: State, d: Served, r: State) {
    && r.order == s.order && r.fallback == s.fallback && r.lanes.Keys == s.lanes.Keys
    && Waiting(s, d.peer) && s.lanes[d.peer].queue == [d.entry] + r.lanes[d.peer].queue
    && (forall p :: p in s.lanes && p != d.peer ==> r.lanes[p].queue == s.lanes[p].queue)
  }

  lemma TakeEffect(s: State, idx: nat)
    requires Good(s) && idx < |s.order| && CanPay(s, s.order[idx])
    ensures Good(Take(s, idx).rest) && MovesOne(s, Take(s, idx).served, Take(s, idx).rest)
  {
    var p := s.order[idx];
    var q, r := s.lanes[p].queue, Take(s, idx).rest;
    assert q == [q[0]] + q[1..];
    forall x, i | x in r.lanes && 0 <= i < |r.lanes[x].queue|
      ensures r.lanes[x].queue[i].cost <= U64_MAX
    {
      assert r.lanes[x].queue[i] == s.lanes[x].queue[if x == p then i + 1 else i];
    }
  }

  lemma RefillKeepsQueues(s: State, amount: nat, d: Served, r: State)
    requires MovesOne(Refilled(s, amount), d, r)
    ensures MovesOne(s, d, r)
  {
  }

  /** What a pop does to each lane. */
  lemma PopEffect(s: State)
    requires Good(s) && Pop(s).Popped?
    ensures Good(Pop(s).rest) && MovesOne(s, Pop(s).served, Pop(s).rest)
  {
    if Scan(s, 0) >= 0 {
      TakeEffect(s, Scan(s, 0));
    } else {
      var low := Lowest(s, |s.order|);
      RefillUnblocks(s);
      RefilledIsGood(s, low);
      TakeEffect(Refilled(s, low), Scan(Refilled(s, low), 0));
      RefillKeepsQueues(s, low, Pop(s).served, Pop(s).rest);
    }
  }

  // ---- Fairness -----------------------------------------------------------------------------------

  /** Every queued entry costs at most `most`, and twice that fits in 64 bits. */
  ghost predicate Priced(s: State, most: nat) {
    && 2 * most <= U64_MAX
    && (forall p, i :: p in s.lanes && 0 <= i < |s.lanes[p].queue| ==> Price(s.fallback, s.lanes[p].queue[i]) <= most)
  }

  /**
   While a lane has entries, what it has been served plus what it has saved is the credit handed
   out so far, which is the same for all; and no lane saves twice the highest price.
   */
  ghost predicate Fair(s: State, most: nat, served: map<Peer, nat>, credit: nat) {
    && (forall p :: p in s.lanes ==> p in served)
    && (forall p :: Waiting(s, p) ==> served[p] + s.lanes[p].deficit == credit && s.lanes[p].deficit < 2 * most)
  }

  function Charged(served: map<Peer, nat>, fallback: nat, d: Served): map<Peer, nat>
    requires d.peer in served
  {
    served[d.peer := served[d.peer] + Price(fallback, d.entry)]
  }

  lemma RefillIsFair(s: State, most: nat, served: map<Peer, nat>, credit: nat, amount: nat)
    requires Good(s) && Priced(s, most) && Fair(s, most, served, credit)
    requires forall p :: !CanPay(s, p)
    requires amount <= most
    ensures Fair(Refilled(s, amount), most, served, credit + amount) && Priced(Refilled(s, amount), most)
  {
    var r := Refilled(s, amount);
    forall p | Waiting(r, p)
      ensures served[p] + r.lanes[p].deficit == credit + amount && r.lanes[p].deficit < 2 * most
    {
      assert Waiting(s, p) && !CanPay(s, p);
      assert TopPrice(s, p) <= most;
    }
  }

  lemma TakeIsFair(s: State, most: nat, served: map<Peer, nat>, credit: nat, idx: nat)
    requires Good(s) && Priced(s, most) && Fair(s, most, served, credit)
    requires idx < |s.order| && CanPay(s, s.order[idx])
    ensures var t := Take(s, idx); Fair(t.rest, most, Charged(served, s.fallback, t.served), credit) && Priced(t.rest, most)
  {
    var p := s.order[idx];
    var t := Take(s, idx);
    forall q, i | q in t.rest.lanes && 0 <= i < |t.rest.lanes[q].queue|
      ensures Price(s.fallback, t.rest.lanes[q].queue[i]) <= most
    {
      assert t.rest.lanes[q].queue[i] == s.lanes[q].queue[if q == p then i + 1 else i];
    }
  }

  /** A pop keeps fairness, charging the served entry to its peer. */
  lemma PopIsFair(s: State, most: nat, served: map<Peer, nat>, credit: nat) returns (credit': nat)
    requires Good(s) && Priced(s, most) && Fair(s, most, served, credit) && Pop(s).Popped?
    ensures Pop(s).served.peer in served
    ensures Fair(Pop(s).rest, most, Charged(served, s.fallback, Pop(s).served), credit') && Priced(Pop(s).rest, most)
  {
    if Scan(s, 0) >= 0 {
      TakeIsFair(s, most, served, credit, Scan(s, 0));
      credit' := credit;
    } else {
      var low := Lowest(s, |s.order|);
      ScanIsComplete(s);
      var i :| 0 <= i < |s.order| && Waiting(s, PeerAt(s, i)) && low == TopPrice(s, PeerAt(s, i));
      RefillIsFair(s, most, served, credit, low);
      RefillUnblocks(s);
      RefilledIsGood(s, low);
      var r := Refilled(s, low);
      TakeIsFair(r, most, served, credit + low, Scan(r, 0));
      credit' := credit + low;
    }
  }

  // ---- Runs of pops -----------------------------------------------------------------------------------

  /** The state after `k` pops. */
  ghost function After(s: State, k: nat): (r: State)
    requires Good(s)
    ensures Good(r) && r.order == s.order && r.fallback == s.fallback && r.lanes.Keys == s.lanes.Keys
  {
    if k == 0 then s
    else
      var t := After(s, k - 1);
      match Pop(t)
      case Empty => t
      case Popped(_, rest) => PopEffect(t); rest
  }

  /** What the first `k` pops served, in order. */
  ghost function Trace(s: State, k: nat): seq<Served>
    requires Good(s)
  {
    if k == 0 then []
    else
      match Pop(After(s, k - 1))
      case Empty => Trace(s, k - 1)
      case Popped(d, _) => Trace(s, k - 1) + [d]
  }

  lemma RunStart(s: State)
    requires Good(s)
    ensures After(s, 0) == s && Trace(s, 0) == []
  {
  }

  lemma AfterIsGood(s: State, k: nat)
    requires Good(s)
    ensures Good(After(s, k)) && After(s, k).fallback == s.fallback && After(s, k).lanes.Keys == s.lanes.Keys
  {
  }

  /** `b`, with `tb` served, is one pop after `a`, with `ta` served. */
  ghost predicate OnePop(a: State, ta: seq<Served>, b: State, tb: seq<Served>)
    requires Good(a)
  {
    if Pop(a).Popped? then b == Pop(a).rest && tb == ta + [Pop(a).served] else b == a && tb == ta
  }

  lemma RunStep(s: State, k: nat)
    requires Good(s) && k > 0
    ensures OnePop(After(s, k - 1), Trace(s, k - 1), After(s, k), Trace(s, k))
  {
    hide Pop, Good;
  }

  /** The entries served to one peer, in order. */
  function ServedTo(trace: seq<Served>, p: Peer): seq<Entry> {
    if trace == [] then []
    else ServedTo(trace[..|trace| - 1], p) + if trace[|trace| - 1].peer == p then [trace[|trace| - 1].entry] else []
  }

  /** The cost served to one peer. */
  function CostOf(entries: seq<Entry>, fallback: nat): nat {
    if entries == [] then 0
    else CostOf(entries[..|entries| - 1], fallback) + Price(fallback, entries[|entries| - 1])
  }

  lemma EmptyTrace(p: Peer, lane: seq<Entry>)
    ensures ServedTo([], p) + lane == lane
  {
  }

  lemma LaneMove(trace: seq<Served>, t: State, d: Served, r: State, p: Peer)
    requires MovesOne(t, d, r) && p in t.lanes
    ensures ServedTo(trace + [d], p) + r.lanes[p].queue == ServedTo(trace, p) + t.lanes[p].queue
  {
    assert (trace + [d])[..|trace|] == trace;
    var before, left := ServedTo(trace, p), r.lanes[p].queue;
    if p == d.peer {
      assert before + [d.entry] + left == before + ([d.entry] + left);
    } else {
      assert before + [] == before;
    }
  }

  lemma LaneStep(a: State, ta: seq<Served>, b: State, tb: seq<Served>, p: Peer)
    requires Good(a) && p in a.lanes && OnePop(a, ta, b, tb)
    ensures p in b.lanes && ServedTo(tb, p) + b.lanes[p].queue == ServedTo(ta, p) + a.lanes[p].queue
  {
    hide Pop, Good, ServedTo;
    if Pop(a).Popped? {
      PopEffect(a);
      LaneMove(ta, a, Pop(a).served, b, p);
    }
  }

  /** Nothing is lost, invented or reordered: each peer's served entries and what is left are its lane. */
  lemma {:induction false} TraceIsLane(s: State, k: nat, p: Peer)
    requires Good(s) && p in s.lanes
    ensures ServedTo(Trace(s, k), p) + After(s, k).lanes[p].queue == s.lanes[p].queue
    decreases k
  {
    hide *;
    RunStart(s);
    EmptyTrace(p, s.lanes[p].queue);
    if k > 0 {
      TraceIsLane(s, k - 1, p);
      AfterIsGood(s, k - 1);
      RunStep(s, k);
      LaneStep(After(s, k - 1), Trace(s, k - 1), After(s, k), Trace(s, k), p);
    }
  }

  lemma FreshIsFair(s: State, most: nat) returns (served: map<Peer, nat>)
    requires Good(s) && Priced(s, most) && (forall p :: p in s.lanes ==> s.lanes[p].deficit == 0)
    ensures Fair(s, most, served, 0) && served.Keys == s.lanes.Keys && Bills(served, [], s.fallback)
  {
    served := map p | p in s.lanes :: 0;
    forall p | Waiting(s, p)
      ensures most > 0
    {
      assert Price(s.fallback, s.lanes[p].queue[0]) <= most;
    }
  }

  /** Fairness bookkeeping over a run from a state with no deficits. */
  lemma {:induction false} RunIsFair(s: State, most: nat, k: nat) returns (served: map<Peer, nat>, credit: nat)
    requires Good(s) && Priced(s, most) && (forall p :: p in s.lanes ==> s.lanes[p].deficit == 0)
    ensures Fair(After(s, k), most, served, credit) && Priced(After(s, k), most)
    ensures served.Keys == s.lanes.Keys && Bills(served, Trace(s, k), s.fallback)
    decreases k
  {
    hide *;
    RunStart(s);
    if k == 0 {
      served := FreshIsFair(s, most);
      credit := 0;
    } else {
      served, credit := RunIsFair(s, most, k - 1);
      AfterIsGood(s, k - 1);
      RunStep(s, k);
      served, credit := FairStep(After(s, k - 1), Trace(s, k - 1), After(s, k), Trace(s, k), most, served, credit);
    }
  }

  lemma FairStep(a: State, ta: seq<Served>, b: State, tb: seq<Served>, most: nat, bill: map<Peer, nat>, credit: nat)
    returns (bill': map<Peer, nat>, credit': nat)
    requires Good(a) && OnePop(a, ta, b, tb)
    requires Fair(a, most, bill, credit) && Priced(a, most) && Bills(bill, ta, a.fallback)
    ensures Fair(b, most, bill', credit') && Priced(b, most) && Bills(bill', tb, a.fallback) && bill'.Keys == bill.Keys
  {
    hide Pop, Fair, Priced, Bills, Price, Good;
    bill', credit' := bill, credit;
    if Pop(a).Popped? {
      credit' := PopIsFair(a, most, bill, credit);
      ChargeBills(bill, ta, a.fallback, Pop(a).served);
      bill' := Charged(bill, a.fallback, Pop(a).served);
    }
  }

  /** The bill of every peer: what the trace served to it. */
  ghost predicate Bills(served: map<Peer, nat>, trace: seq<Served>, fallback: nat) {
    forall p :: p in served ==> served[p] == CostOf(ServedTo(trace, p), fallback)
  }

  lemma ChargeIsCost(trace: seq<Served>, d: Served, fallback: nat, p: Peer)
    ensures CostOf(ServedTo(trace + [d], p), fallback) ==
            CostOf(ServedTo(trace, p), fallback) + if p == d.peer then Price(fallback, d.entry) else 0
  {
    hide Price;
    assert (trace + [d])[..|trace|] == trace;
    var before := ServedTo(trace, p);
    if p == d.peer {
      assert ServedTo(trace + [d], p) == before + [d.entry];
      assert (before + [d.entry])[..|before|] == before;
    } else {
      assert ServedTo(trace + [d], p) == before + [];
      assert before + [] == before;
    }
  }

  lemma ChargeBills(served: map<Peer, nat>, trace: seq<Served>, fallback: nat, d: Served)
    requires Bills(served, trace, fallback) && d.peer in served
    ensures Bills(Charged(served, fallback, d), trace + [d], fallback)
  {
    hide CostOf, ServedTo, Price;
    forall p | p in served
      ensures Charged(served, fallback, d)[p] == CostOf(ServedTo(trace + [d], p), fallback)
    {
      ChargeIsCost(trace, d, fallback, p);
    }
  }

  /**
   Fairness at every point of a drain: for any two peers still waiting, the costs served to them so
   far differ by less than twice the highest price in the batch.
   */
  lemma DrainIsFair(s: State, most: nat, k: nat, p: Peer, q: Peer)
    requires Good(s) && Priced(s, most) && (forall r :: r in s.lanes ==> s.lanes[r].deficit == 0)
    requires Waiting(After(s, k), p) && Waiting(After(s, k), q)
    ensures CostOf(ServedTo(Trace(s, k), p), s.fallback) < CostOf(ServedTo(Trace(s, k), q), s.fallback) + 2 * most
  {
    var served, credit := RunIsFair(s, most, k);
  }

  // ---- Fairness in advertised costs --------------------------------------------------------------------------

  /** The sum of the costs advertised. */
  function Advertised(entries: seq<Entry>): nat {
    if entries == [] then 0 else Advertised(entries[..|entries| - 1]) + entries[|entries| - 1].cost
  }

  /** How many entries advertise no cost. */
  function Costless(entries: seq<Entry>): nat {
    if entries == [] then 0
    else Costless(entries[..|entries| - 1]) + if entries[|entries| - 1].cost == 0 then 1 else 0
  }

  /** What entries count for: the costs they advertise, and the fallback for each that advertises none. */
  function Billed(entries: seq<Entry>, fallback: nat): nat {
    Advertised(entries) + fallback * Costless(entries)
  }

  lemma {:induction false} CostIsAdvertised(entries: seq<Entry>, fallback: nat)
    ensures CostOf(entries, fallback) == Billed(entries, fallback)
    decreases |entries|
  {
    if entries != [] {
      CostIsAdvertised(entries[..|entries| - 1], fallback);
    }
  }

  /** No queued entry advertises more than `most`, and the fallback counts only if some entry needs it. */
  ghost predicate CostsAtMost(s: State, most: nat) {
    && 2 * most <= U64_MAX
    && (forall p, i :: p in s.lanes && 0 <= i < |s.lanes[p].queue| ==>
          s.lanes[p].queue[i].cost <= most && (s.lanes[p].queue[i].cost == 0 ==> s.fallback <= most))
  }

  /**
   Fairness in advertised costs: for any two peers still waiting, what they were served so far differs by
   less than twice the largest cost, an entry without a cost counting as the fallback.
   */
  lemma DrainIsFairInCosts(s: State, most: nat, k: nat, p: Peer, q: Peer)
    requires Good(s) && CostsAtMost(s, most) && (forall r :: r in s.lanes ==> s.lanes[r].deficit == 0)
    requires Waiting(After(s, k), p) && Waiting(After(s, k), q)
    ensures Billed(ServedTo(Trace(s, k), p), s.fallback) < Billed(ServedTo(Trace(s, k), q), s.fallback) + 2 * most
  {
    hide After, Trace, ServedTo, CostOf, Billed, Good, Waiting;
    AtMostIsPriced(s, most);
    DrainIsFair(s, most, k, p, q);
    CostIsAdvertised(ServedTo(Trace(s, k), p), s.fallback);
    CostIsAdvertised(ServedTo(Trace(s, k), q), s.fallback);
  }

  lemma AtMostIsPriced(s: State, most: nat)
    requires CostsAtMost(s, most)
    ensures Priced(s, most)
  {
  }

  // ---- One pop in plain terms --------------------------------------------------------------------------------------

  /** The peer has an entry, and its deficit with `extra` covers the cost advertised for the first one. */
  ghost predicate Affords(s: State, p: Peer, extra: nat) {
    && Waiting(s, p)
    && var c, d := s.lanes[p].queue[0].cost, s.lanes[p].deficit + extra;
       if c > 0 then d >= c else d >= s.fallback
  }

  /** `extra` is what the first entry of some peer costs, and no peer's first entry costs less. */
  ghost predicate CheapestFirstEntry(s: State, extra: nat) {
    && (exists p :: Waiting(s, p) && var c := s.lanes[p].queue[0].cost; extra == if c > 0 then c else s.fallback)
    && (forall p :: Waiting(s, p) ==> var c := s.lanes[p].queue[0].cost; extra <= if c > 0 then c else s.fallback)
  }

  /** Position `k` of the walk from the cursor. */
  ghost predicate WalkAt(s: State, k: nat, p: Peer) {
    s.order != [] && p == s.order[(s.cursor + k) % |s.order|]
  }

  /** The scheduler after handing out `extra`. */
  ghost predicate Handed(s: State, v: State, extra: nat) {
    if extra == 0 then v == s else v == Refilled(s, extra)
  }

  /** Paying after the credit is handed out is affording it before. */
  lemma PaysIsAffords(s: State, v: State, extra: nat, p: Peer)
    requires Good(s) && Handed(s, v, extra)
    ensures CanPay(v, p) <==> Affords(s, p, extra)
  {
    if Waiting(s, p) {
      assert s.lanes[p].queue[0].cost <= U64_MAX;
    }
  }

  /** The offset at which a walk stops. */
  lemma {:induction false} ScanOffset(s: State, offset: nat) returns (k: nat)
    requires s.cursor < |s.order| && offset <= |s.order| && Scan(s, offset) >= 0
    ensures offset <= k < |s.order| && Scan(s, offset) == Wrap(s.cursor + k, |s.order|) && CanPay(s, PeerAt(s, k))
    ensures forall j :: offset <= j < k ==> !CanPay(s, PeerAt(s, j))
    decreases |s.order| - offset
  {
    if CanPay(s, PeerAt(s, offset)) {
      k := offset;
    } else {
      k := ScanOffset(s, offset + 1);
    }
  }

  lemma WalkIsPeerAt(s: State, k: nat, p: Peer)
    requires s.cursor < |s.order| && k < |s.order|
    ensures WalkAt(s, k, p) <==> p == PeerAt(s, k)
  {
    WrapIsMod(s.cursor + k, |s.order|);
  }

  lemma LowestIsCheapest(s: State)
    requires Good(s) && s.order != [] && Lowest(s, |s.order|) >= 0
    ensures CheapestFirstEntry(s, Lowest(s, |s.order|)) && Lowest(s, |s.order|) > 0
  {
    hide Lowest;
    var p := LowestIsTop(s);
    forall q | Waiting(s, q)
      ensures Lowest(s, |s.order|) <= TopPrice(s, q)
    {
      LowestBounds(s, q);
    }
  }

  lemma LowestBounds(s: State, p: Peer)
    requires Good(s) && s.order != [] && Waiting(s, p)
    ensures Lowest(s, |s.order|) <= TopPrice(s, p)
  {
    WalkMeetsAll(s, p);
    var k :| 0 <= k < |s.order| && PeerAt(s, k) == p;
  }

  /** What serving the peer at offset `k` of the walk leaves. */
  lemma TakeExactly(s: State, v: State, k: nat, extra: nat)
    requires Good(s) && Good(v) && Handed(s, v, extra) && k < |s.order| && CanPay(v, PeerAt(v, k))
    ensures var t := Take(v, Wrap(v.cursor + k, |v.order|));
            var p, e, r := t.served.peer, t.served.entry, t.rest;
            && p == PeerAt(s, k) && Waiting(s, p) && p in r.lanes && s.lanes[p].queue == [e] + r.lanes[p].queue
            && r.cursor == (s.cursor + k + 1) % |s.order|
            && (forall q :: Waiting(s, q) && q != p ==> Credited(s, r, q, extra))
            && r.lanes[p].deficit == (if r.lanes[p].queue == [] then 0
                                      else SaturatingAdd(s.lanes[p].deficit, extra) - if e.cost > 0 then e.cost else s.fallback)
  {
    hide Handed, CanPay, Take, SaturatingAdd;
    HandedLanes(s, v, extra);
    NextCursor(s.cursor, k, |s.order|);
    TakeFrom(v, Wrap(v.cursor + k, |v.order|));
    hide Good, Wrap;
    forall q | Waiting(s, q) && q != PeerAt(s, k)
      ensures Credited(s, Take(v, Wrap(v.cursor + k, |v.order|)).rest, q, extra)
    {
      assert Waiting(v, q);
    }
  }

  /** Every waiting peer has its entries and the credit. */
  lemma HandedLanes(s: State, v: State, extra: nat)
    requires Good(s) && Handed(s, v, extra)
    ensures v.order == s.order && v.cursor == s.cursor && v.fallback == s.fallback && v.lanes.Keys == s.lanes.Keys
    ensures forall q :: Waiting(v, q) <==> Waiting(s, q)
    ensures forall q :: Waiting(s, q) ==> v.lanes[q] == Lane(s.lanes[q].queue, SaturatingAdd(s.lanes[q].deficit, extra))
  {
    forall q | Waiting(s, q)
      ensures v.lanes[q] == Lane(s.lanes[q].queue, SaturatingAdd(s.lanes[q].deficit, extra))
    {
      assert GoodLane(s.lanes[q]);
    }
  }

  /** Serving one peer. */
  lemma TakeFrom(v: State, idx: nat)
    requires idx < |v.order| && CanPay(v, v.order[idx])
    ensures var t, p := Take(v, idx), v.order[idx];
            && t.Popped? && t.served.peer == p && p in t.rest.lanes && Waiting(v, p)
            && v.lanes[p].queue == [t.served.entry] + t.rest.lanes[p].queue
            && t.rest.cursor == (idx + 1) % |v.order|
            && (forall q :: q in v.lanes && q != p ==> q in t.rest.lanes && t.rest.lanes[q] == v.lanes[q])
            && t.rest.lanes[p].deficit == (if t.rest.lanes[p].queue == [] then 0
                                           else v.lanes[p].deficit - if t.served.entry.cost > 0 then t.served.entry.cost else v.fallback)
  {
    WrapIsMod(idx + 1, |v.order|);
    var q := v.lanes[v.order[idx]].queue;
    assert q == [q[0]] + q[1..];
  }

  /** A waiting peer that is not served keeps its lane and gets the credit. */
  ghost predicate Credited(s: State, r: State, q: Peer, extra: nat)
    requires q in s.lanes
  {
    q in r.lanes && r.lanes[q] == Lane(s.lanes[q].queue, SaturatingAdd(s.lanes[q].deficit, extra))
  }

  lemma NextCursor(c: nat, k: nat, n: nat)
    requires c < n && k < n
    ensures (Wrap(c + k, n) + 1) % n == (c + k + 1) % n
  {
    if c + k >= n {
      ModShiftUp(c + k - n + 1, n);
    }
  }

  lemma ModShiftUp(j: nat, n: nat)
    requires j <= n && n > 0
    ensures (j + n) % n == j % n
  {
    if j == n {
      assert (j + n) % n == 0 by {
        assert j + n == 2 * n;
      }
    } else {
      ModShift(j, n);
    }
  }

  /**
   One pop. If some peer affords its first entry nobody gets credit; otherwise every waiting peer gets the
   cheapest first entry's cost. The peer served is the first in the walk from the cursor that then affords
   its first entry, which it is served and charged for; a lane that runs empty keeps no credit, and the
   next walk starts just past that peer.
   */
  lemma PopExactly(s: State) returns (k: nat, extra: nat)
    requires Good(s) && Pop(s).Popped?
    ensures var p, e, r := Pop(s).served.peer, Pop(s).served.entry, Pop(s).rest;
            && k < |s.order| && WalkAt(s, k, p) && Affords(s, p, extra)
            && (forall j, q :: 0 <= j < k && WalkAt(s, j, q) ==> !Affords(s, q, extra))
            && (if exists q :: Affords(s, q, 0) then extra == 0 else CheapestFirstEntry(s, extra))
            && p in r.lanes && s.lanes[p].queue == [e] + r.lanes[p].queue && r.cursor == (s.cursor + k + 1) % |s.order|
            && (forall q :: Waiting(s, q) && q != p ==> Credited(s, r, q, extra))
            && r.lanes[p].deficit == (if r.lanes[p].queue == [] then 0
                                      else SaturatingAdd(s.lanes[p].deficit, extra) - if e.cost > 0 then e.cost else s.fallback)
  {
    var v: State;
    v, extra := Credit(s);
    hide Lowest, Refilled, Good, CanPay, CheapestFirstEntry, Credited;
    k := ScanOffset(v, 0);
    hide Scan, Handed, Affords, WalkAt, Waiting;
    CreditDecides(s, v, extra, k);
    TakeExactly(s, v, k, extra);
    WalkIsPeerAt(s, k, PeerAt(s, k));
  }

  /** The credit handed out before the walk that serves. */
  lemma Credit(s: State) returns (v: State, extra: nat)
    requires Good(s) && Pop(s).Popped?
    ensures Good(v) && Handed(s, v, extra) && s.cursor < |s.order| && Scan(v, 0) >= 0 && Pop(s) == Take(v, Scan(v, 0))
    ensures v.order == s.order && v.cursor == s.cursor && (extra > 0 ==> forall p :: !CanPay(s, p))
    ensures extra == 0 ==> v == s
    ensures extra > 0 ==> CheapestFirstEntry(s, extra)
  {
    v, extra := s, 0;
    if Scan(s, 0) < 0 {
      LowestIsCheapest(s);
      extra := Lowest(s, |s.order|);
      RefillUnblocks(s);
      RefilledIsGood(s, extra);
      v := Refilled(s, extra);
      ScanIsComplete(s);
    }
  }

  /** Who affords what before and after the credit. */
  lemma CreditDecides(s: State, v: State, extra: nat, k: nat)
    requires Good(s) && Handed(s, v, extra) && s.cursor < |s.order| && k < |s.order| && CanPay(v, PeerAt(v, k))
    requires forall j :: 0 <= j < k ==> !CanPay(v, PeerAt(v, j))
    requires extra > 0 ==> forall p :: !CanPay(s, p)
    ensures v.cursor == s.cursor && v.order == s.order && Affords(s, PeerAt(s, k), extra)
    ensures forall j, q :: 0 <= j < k && WalkAt(s, j, q) ==> !Affords(s, q, extra)
    ensures extra > 0 ==> forall q :: !Affords(s, q, 0)
    ensures extra == 0 ==> exists q :: Affords(s, q, 0)
  {
    NobodyAffords(s, extra);
    hide CanPay, Affords, Good, Waiting;
    PaysIsAffords(s, v, extra, PeerAt(s, k));
    forall j, q | 0 <= j < k && WalkAt(s, j, q)
      ensures !Affords(s, q, extra)
    {
      WalkIsPeerAt(s, j, q);
      assert PeerAt(v, j) == q && !CanPay(v, PeerAt(v, j));
      PaysIsAffords(s, v, extra, q);
    }
  }

  lemma NobodyAffords(s: State, extra: nat)
    requires Good(s) && (extra > 0 ==> forall p :: !CanPay(s, p))
    ensures extra > 0 ==> forall q :: !Affords(s, q, 0)
  {
    if extra > 0 {
      forall q
        ensures !Affords(s, q, 0)
      {
        PaysIsAffords(s, s, 0, q);
      }
    }
  }
}
