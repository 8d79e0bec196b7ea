/**
 The gossip transaction inbox: a trusted first-in first-out lane, one fee-ordered lane per untrusted
 peer, and the deficit-round-robin drain that empties them.
 */
module TxInbox {
  import opened Arithmetic
  import opened Coins
  import opened TxOrder
  import opened Drr

  type Sent = (Peer, Bundle)

  function Len(lanes: map<Peer, Lane>, p: Peer): nat {
    if p in lanes then |lanes[p].queue| else 0
  }

  /** Entries queued in the lanes of `order`. */
  function Backlog(lanes: map<Peer, Lane>, order: seq<Peer>): nat {
    if order == [] then 0
    else Backlog(lanes, order[..|order| - 1]) + Len(lanes, order[|order| - 1])
  }

  /** What a drain hands on for each served entry. */
  function SentOf(trace: seq<Served>): seq<Sent> {
    seq(|trace|, i requires 0 <= i < |trace| => (trace[i].peer, trace[i].entry.bundle))
  }

  lemma {:induction false} BacklogMoves(a: map<Peer, Lane>, b: map<Peer, Lane>, order: seq<Peer>, p: Peer)
    requires Distinct(order)
    requires forall q :: q in order && q != p ==> Len(a, q) == Len(b, q)
    ensures Backlog(b, order) == Backlog(a, order) + if p in order then Len(b, p) - Len(a, p) else 0
    decreases |order|
  {
    if order != [] {
      var init, last := order[..|order| - 1], order[|order| - 1];
      BacklogMoves(a, b, init, p);
      assert order == init + [last];
      assert last !in init;
    }
  }

  lemma {:induction false} BacklogHolds(lanes: map<Peer, Lane>, order: seq<Peer>, p: Peer)
    requires p in order
    ensures Len(lanes, p) <= Backlog(lanes, order)
    decreases |order|
  {
    var init, last := order[..|order| - 1], order[|order| - 1];
    assert order == init + [last];
    if p != last {
      BacklogHolds(lanes, init, p);
    }
  }

  lemma {:induction false} EmptyBacklog(lanes: map<Peer, Lane>, order: seq<Peer>)
    requires forall p :: p in order ==> Len(lanes, p) == 0
    ensures Backlog(lanes, order) == 0
    decreases |order|
  {
    if order != [] {
      EmptyBacklog(lanes, order[..|order| - 1]);
    }
  }

  /** The backlog is empty exactly when a pop finds nobody waiting. */
  lemma PopsUntilEmpty(s: State)
    requires Good(s)
    ensures Backlog(s.lanes, s.order) == 0 <==> Pop(s).Empty?
  {
    hide Pop;
    PopIsEmpty(s);
    if Pop(s).Empty? {
      forall p | p in s.order
        ensures Len(s.lanes, p) == 0
      {
        assert !Waiting(s, p);
      }
      EmptyBacklog(s.lanes, s.order);
    } else {
      var p :| Waiting(s, p);
      BacklogHolds(s.lanes, s.order, p);
    }
  }

  /** A pop takes one entry off the backlog. */
  lemma PopTakesOne(s: State)
    requires Good(s) && Pop(s).Popped?
    ensures Backlog(s.lanes, s.order) == Backlog(Pop(s).rest.lanes, s.order) + 1
  {
    hide Pop;
    PopEffect(s);
    BacklogMoves(s.lanes, Pop(s).rest.lanes, s.order, Pop(s).served.peer);
  }

  ghost predicate WithinCaps(lanes: map<Peer, Lane>, backlog: nat, cap: nat, perPeer: nat) {
    backlog <= cap && forall p :: p in lanes ==> |lanes[p].queue| <= perPeer
  }

  lemma PopKeepsCaps(s: State, backlog: nat, cap: nat, perPeer: nat)
    requires Good(s) && Pop(s).Popped? && WithinCaps(s.lanes, backlog, cap, perPeer) && backlog > 0
    ensures WithinCaps(Pop(s).rest.lanes, backlog - 1, cap, perPeer)
  {
    hide Pop;
    PopEffect(s);
  }

  // ---- What a whole drain serves -------------------------------------------------------------------

  lemma {:induction false} TraceGrows(s: State, k: nat)
    requires Good(s) && |Trace(s, k)| == k
    ensures forall j :: 0 <= j <= k ==> Trace(s, j) == Trace(s, k)[..j]
    decreases k
  {
    hide *;
    RunStart(s);
    if k > 0 {
      AfterIsGood(s, k - 1);
      RunStep(s, k);
      LastServed(s, k);
      TraceGrows(s, k - 1);
      var t, t' := Trace(s, k), Trace(s, k - 1);
      assert t[..k] == t;
      forall j | 0 <= j < k
        ensures Trace(s, j) == t[..j]
      {
        assert t'[..j] == t[..j];
      }
    }
  }

  lemma LastServed(s: State, k: nat)
    requires Good(s) && k > 0 && |Trace(s, k)| == k
    ensures |Trace(s, k - 1)| == k - 1 && Trace(s, k)[..k - 1] == Trace(s, k - 1)
  {
    hide *;
    AfterIsGood(s, k - 1);
    RunStep(s, k);
    ServedBound(s, k - 1);
    OnePopLength(After(s, k - 1), Trace(s, k - 1), After(s, k), Trace(s, k));
  }

  lemma {:induction false} ServedBound(s: State, k: nat)
    requires Good(s)
    ensures |Trace(s, k)| <= k
    decreases k
  {
    hide *;
    RunStart(s);
    if k > 0 {
      ServedBound(s, k - 1);
      AfterIsGood(s, k - 1);
      RunStep(s, k);
      OnePopLength(After(s, k - 1), Trace(s, k - 1), After(s, k), Trace(s, k));
    }
  }

  lemma OnePopLength(a: State, ta: seq<Served>, b: State, tb: seq<Served>)
    requires Good(a) && OnePop(a, ta, b, tb)
    ensures |ta| <= |tb| <= |ta| + 1 && tb[..|ta|] == ta
  {
    hide Pop, Good;
  }

  /**
   Fairness of a drain, read off what it handed on: at any point, for any two peers that are each
   still owed an entry, the costs served so far differ by less than twice the highest price.
   */
  lemma FairDrain(s: State, most: nat, n: nat, k: nat, p: Peer, q: Peer)
    requires Good(s) && Priced(s, most) && (forall r :: r in s.lanes ==> s.lanes[r].deficit == 0)
    requires |Trace(s, n)| == n && k <= n && p in s.lanes && q in s.lanes
    requires ServedTo(Trace(s, n)[..k], p) != s.lanes[p].queue && ServedTo(Trace(s, n)[..k], q) != s.lanes[q].queue
    ensures CostOf(ServedTo(Trace(s, n)[..k], p), s.fallback) < CostOf(ServedTo(Trace(s, n)[..k], q), s.fallback) + 2 * most
  {
    TraceGrows(s, n);
    hide After, Trace, ServedTo, CostOf, Priced, Good;
    StillOwed(s, k, p);
    StillOwed(s, k, q);
    DrainIsFair(s, most, k, p, q);
  }

  lemma StillOwed(s: State, k: nat, p: Peer)
    requires Good(s) && p in s.lanes && ServedTo(Trace(s, k), p) != s.lanes[p].queue
    ensures Waiting(After(s, k), p)
  {
    TraceIsLane(s, k, p);
    AfterIsGood(s, k);
    hide After, Trace, ServedTo, Good;
    var served := ServedTo(Trace(s, k), p);
    assert served + [] == served;
  }

  /** The same bound in advertised costs. */
  lemma FairDrainInCosts(s: State, most: nat, n: nat, k: nat, p: Peer, q: Peer)
    requires Good(s) && CostsAtMost(s, most) && (forall r :: r in s.lanes ==> s.lanes[r].deficit == 0)
    requires |Trace(s, n)| == n && k <= n && p in s.lanes && q in s.lanes
    requires ServedTo(Trace(s, n)[..k], p) != s.lanes[p].queue && ServedTo(Trace(s, n)[..k], q) != s.lanes[q].queue
    ensures Billed(ServedTo(Trace(s, n)[..k], p), s.fallback) < Billed(ServedTo(Trace(s, n)[..k], q), s.fallback) + 2 * most
  {
    TraceGrows(s, n);
    hide After, Trace, ServedTo, Billed, CostsAtMost, Good;
    StillOwed(s, k, p);
    StillOwed(s, k, q);
    DrainIsFairInCosts(s, most, k, p, q);
  }

  /** When nobody is waiting, every lane was served in full. */
  lemma AllServed(s: State, k: nat, p: Peer)
    requires Good(s) && Backlog(After(s, k).lanes, After(s, k).order) == 0
    ensures ServedTo(Trace(s, k), p) == if p in s.lanes then s.lanes[p].queue else []
  {
    hide *;
    AfterIsGood(s, k);
    if p in s.lanes {
      TraceIsLane(s, k, p);
      LaneIsEmpty(After(s, k), p);
      DropEmpty(ServedTo(Trace(s, k), p));
    } else {
      StrangersGetNothing(s, k, p);
    }
  }

  lemma DropEmpty(q: seq<Entry>)
    ensures q + [] == q
  {
  }

  lemma LaneIsEmpty(s: State, p: Peer)
    requires Good(s) && p in s.lanes && Backlog(s.lanes, s.order) == 0
    ensures s.lanes[p].queue == []
  {
    BacklogHolds(s.lanes, s.order, p);
  }

  lemma {:induction false} StrangersGetNothing(s: State, k: nat, p: Peer)
    requires Good(s) && p !in s.lanes
    ensures ServedTo(Trace(s, k), p) == []
    decreases k
  {
    hide *;
    RunStart(s);
    EmptyTrace(p, []);
    DropEmpty(ServedTo([], p));
    if k > 0 {
      StrangersGetNothing(s, k - 1, p);
      AfterIsGood(s, k - 1);
      RunStep(s, k);
      StrangerStep(After(s, k - 1), Trace(s, k - 1), After(s, k), Trace(s, k), p);
    }
  }

  lemma StrangerStep(a: State, ta: seq<Served>, b: State, tb: seq<Served>, p: Peer)
    requires Good(a) && p !in a.lanes && OnePop(a, ta, b, tb)
    ensures ServedTo(tb, p) == ServedTo(ta, p)
  {
    if Pop(a).Popped? {
      PopEffect(a);
      hide Pop, Good;
      assert tb[..|tb| - 1] == ta;
      assert ServedTo(ta, p) + [] == ServedTo(ta, p);
    }
  }

  // ---- What the queue keeps between calls -------------------------------------------------------------

  /** The arrivals of a peer since the last drain or clear. */
  function Arrived(arrivals: map<Peer, seq<Entry>>, p: Peer): seq<Entry> {
    if p in arrivals then arrivals[p] else []
  }

  /** Each lane is the stable sort of its arrivals, and no credit is held over. */
  ghost predicate Filed(lanes: map<Peer, Lane>, arrivals: map<Peer, seq<Entry>>) {
    && (forall p :: p in arrivals ==> p in lanes)
    && (forall p :: p in lanes ==> lanes[p] == Lane(LaneOf(Arrived(arrivals, p)), 0))
  }

  ghost predicate Sound(s: State, backlog: nat, cap: nat, perPeer: nat) {
    Good(s) && backlog == Backlog(s.lanes, s.order) && WithinCaps(s.lanes, backlog, cap, perPeer)
  }

  lemma ArrivedLength(lanes: map<Peer, Lane>, arrivals: map<Peer, seq<Entry>>, p: Peer)
    requires Filed(lanes, arrivals) && p in lanes
    ensures |lanes[p].queue| == |Arrived(arrivals, p)|
  {
    var a := Arrived(arrivals, p);
    LaneIsStableSort(a, Entry(0, 0, 0));
    assert |multiset(LaneOf(a))| == |LaneOf(a)|;
    assert |multiset(a)| == |a|;
  }

  function Opened(s: State, p: Peer): State {
    if p in s.lanes then s else s.(order := s.order + [p], lanes := s.lanes[p := Lane([], 0)])
  }

  lemma OpenedIsGood(s: State, p: Peer)
    requires Good(s) && s.cursor == 0
    ensures Good(Opened(s, p))
  {
    var r := Opened(s, p);
    forall q
      ensures q in r.order <==> q in r.lanes
    {
      assert q in s.order <==> q in s.lanes;
    }
  }

  lemma OpenedIsSound(s: State, backlog: nat, cap: nat, perPeer: nat, p: Peer)
    requires Sound(s, backlog, cap, perPeer) && s.cursor == 0
    ensures Sound(Opened(s, p), backlog, cap, perPeer)
  {
    hide Good, Distinct, Backlog;
    OpenedIsGood(s, p);
    if p !in s.lanes {
      OpenedOrder(s, p);
      OpenedBacklog(s.lanes, s.order, p);
    }
  }

  lemma OpenedBacklog(lanes: map<Peer, Lane>, order: seq<Peer>, p: Peer)
    requires p !in lanes && Distinct(order + [p])
    ensures Backlog(lanes[p := Lane([], 0)], order + [p]) == Backlog(lanes, order)
  {
    assert Len(lanes, p) == 0;
    BacklogMoves(lanes, lanes[p := Lane([], 0)], order + [p], p);
    assert (order + [p])[..|order|] == order;
  }

  lemma OpenedOrder(s: State, p: Peer)
    requires Good(Opened(s, p))
    ensures Distinct(Opened(s, p).order)
  {
  }

  lemma OpenedIsFiled(s: State, arrivals: map<Peer, seq<Entry>>, p: Peer)
    requires Filed(s.lanes, arrivals)
    ensures Filed(Opened(s, p).lanes, arrivals)
  {
  }

  function Queued(s: State, p: Peer, e: Entry): State
    requires p in s.lanes
  {
    s.(lanes := s.lanes[p := s.lanes[p].(queue := Inserted(s.lanes[p].queue, e))])
  }

  lemma InsertedFrom(q: seq<Entry>, e: Entry, i: nat)
    requires i < |Inserted(q, e)|
    ensures Inserted(q, e)[i] == e || Inserted(q, e)[i] in q
  {
    var p := InsertAt(q, e);
    if i < p {
      assert Inserted(q, e)[i] == q[i];
    } else if i > p {
      assert Inserted(q, e)[i] == q[i - 1];
    }
  }

  lemma QueuedIsGood(s: State, p: Peer, e: Entry)
    requires Good(s) && p in s.lanes && e.cost <= U64_MAX
    ensures Good(Queued(s, p, e))
  {
    var r := Queued(s, p, e);
    hide InsertAt, Inserted;
    forall q, i | q in r.lanes && 0 <= i < |r.lanes[q].queue|
      ensures r.lanes[q].queue[i].cost <= U64_MAX
    {
      if q == p {
        InsertedFrom(s.lanes[p].queue, e, i);
      }
    }
    assert |Inserted(s.lanes[p].queue, e)| > 0 by {
      InsertedLength(s.lanes[p].queue, e);
    }
  }

  lemma InsertedLength(q: seq<Entry>, e: Entry)
    ensures |Inserted(q, e)| == |q| + 1
  {
  }

  lemma QueuedIsSound(s: State, backlog: nat, cap: nat, perPeer: nat, p: Peer, e: Entry)
    requires Sound(s, backlog, cap, perPeer) && p in s.lanes && e.cost <= U64_MAX
    requires backlog < cap && |s.lanes[p].queue| < perPeer
    ensures Sound(Queued(s, p, e), backlog + 1, cap, perPeer)
  {
    QueuedIsGood(s, p, e);
    InsertedLength(s.lanes[p].queue, e);
    hide Inserted, InsertAt;
    BacklogMoves(s.lanes, Queued(s, p, e).lanes, s.order, p);
  }

  lemma QueuedIsFiled(s: State, arrivals: map<Peer, seq<Entry>>, p: Peer, e: Entry)
    requires Filed(s.lanes, arrivals) && p in s.lanes
    ensures Filed(Queued(s, p, e).lanes, arrivals[p := Arrived(arrivals, p) + [e]])
  {
    var a := Arrived(arrivals, p);
    assert (a + [e])[..|a|] == a;
    hide Inserted, InsertAt;
  }

  // ---- Walks of a pop -----------------------------------------------------------------------------------

  /** One step of a walk: the peer met, whether the walk ends there, and the lowest top cost so far. */
  lemma WalkStep(s: State, offset: nat)
    requires Good(s) && offset < |s.order|
    ensures var idx := (s.cursor + offset) % |s.order|;
            && 0 <= idx < |s.order| && s.order[idx] in s.lanes
            && Scan(s, offset) == (if CanPay(s, s.order[idx]) then idx else Scan(s, offset + 1))
            && Lowest(s, offset + 1) == (if !Waiting(s, s.order[idx]) then Lowest(s, offset)
                                         else if Lowest(s, offset) < 0 || TopPrice(s, s.order[idx]) < Lowest(s, offset)
                                         then TopPrice(s, s.order[idx]) else Lowest(s, offset))
  {
    hide CanPay, TopPrice, Waiting;
    WrapIsMod(s.cursor + offset, |s.order|);
    assert PeerAt(s, offset) in s.order;
    hide Wrap;
  }

  lemma WalkEnds(s: State)
    requires Good(s) && s.order != []
    ensures Scan(s, |s.order|) == -1 && Lowest(s, 0) == -1 && 0 <= s.cursor < |s.order|
  {
  }

  /** The scheduler as the walks of one pop see it: as it was, and refilled once. */
  ghost predicate Walked(s: State, v: State, walks: nat)
    requires Good(s) && s.order != []
  {
    if walks == 0 then v == s
    else Scan(s, 0) < 0 && Lowest(s, |s.order|) >= 0 && v == Refilled(s, Lowest(s, |s.order|))
  }

  lemma StartWalk(s: State)
    requires Good(s) && s.order != []
    ensures Walked(s, s, 0)
  {
  }

  lemma ScanPays(s: State)
    requires s.cursor < |s.order| && Scan(s, 0) >= 0
    ensures Scan(s, 0) < |s.order| && CanPay(s, s.order[Scan(s, 0)])
  {
  }

  lemma WalkDecides(s: State, v: State, walks: nat)
    requires Good(s) && s.order != [] && Walked(s, v, walks)
    ensures Good(v) && v.order == s.order && v.cursor < |v.order|
    ensures Scan(v, 0) >= 0 ==> Pop(s) == Take(v, Scan(v, 0))
    ensures Scan(v, 0) < 0 && Lowest(v, |v.order|) < 0 ==> Pop(s) == Empty
    ensures Scan(v, 0) < 0 && Lowest(v, |v.order|) >= 0 ==>
              walks == 0 && Walked(s, Refilled(v, Lowest(v, |v.order|)), 1)
  {
    if walks > 0 {
      RefillUnblocks(s);
      RefilledIsGood(s, Lowest(s, |s.order|));
    }
    hide Good, Lowest, Refilled, Take;
  }

  lemma PopIsSound(s: State, backlog: nat, cap: nat, perPeer: nat)
    requires Sound(s, backlog, cap, perPeer)
    ensures Good(s) && (Pop(s).Empty? <==> backlog == 0)
    ensures backlog > 0 ==> s.order != [] && Sound(Pop(s).rest, backlog - 1, cap, perPeer)
  {
    PopsUntilEmpty(s);
    if backlog > 0 {
      PopEffect(s);
      PopTakesOne(s);
      PopKeepsCaps(s, backlog, cap, perPeer);
    }
    hide Pop, Good, WithinCaps;
  }

  lemma SoundIsGood(s: State, backlog: nat, cap: nat, perPeer: nat)
    requires Sound(s, backlog, cap, perPeer)
    ensures Good(s) && backlog == Backlog(s.lanes, s.order) && 1 <= s.fallback <= U64_MAX
  {
  }

  lemma EmptyIsIdle(s: State, cap: nat, perPeer: nat)
    requires s.lanes == map[] && s.order == [] && s.cursor == 0 && 1 <= s.fallback <= U64_MAX
    ensures Sound(s, 0, cap, perPeer) && Filed(s.lanes, map[])
  {
  }

  lemma EmptySent()
    ensures SentOf([]) == []
  {
  }

  lemma SentLength(trace: seq<Served>)
    ensures |SentOf(trace)| == |trace|
  {
  }

  lemma SentGrows(out: seq<Sent>, trace: seq<Served>, d: Served)
    ensures out + SentOf(trace) + [(d.peer, d.entry.bundle)] == out + SentOf(trace + [d])
  {
  }

  /** A finished drain served every peer its arrivals, stably sorted. */
  lemma DrainServesAll(s: State, n: nat, arrivals: map<Peer, seq<Entry>>)
    requires Good(s) && Filed(s.lanes, arrivals) && Backlog(After(s, n).lanes, After(s, n).order) == 0
    ensures forall p :: ServedTo(Trace(s, n), p) == LaneOf(Arrived(arrivals, p))
  {
    hide After, Trace, ServedTo, Good, Backlog;
    forall p
      ensures ServedTo(Trace(s, n), p) == LaneOf(Arrived(arrivals, p))
    {
      AllServed(s, n, p);
    }
  }

  /** The same in fees and costs. */
  lemma DrainServesByFee(trace: seq<Served>, arrivals: map<Peer, seq<Entry>>)
    requires forall p :: ServedTo(trace, p) == LaneOf(Arrived(arrivals, p))
    ensures forall p :: ByFee(ServedTo(trace, p), Arrived(arrivals, p))
  {
    hide ServedTo, LaneOf, Arrived, ByFee;
    forall p
      ensures ByFee(ServedTo(trace, p), Arrived(arrivals, p))
    {
      LaneByFee(Arrived(arrivals, p));
    }
  }

  /** No entry of the drain advertises more than `most`, and the fallback counts only if some entry needs it. */
  ghost predicate NoneAbove(trace: seq<Served>, fallback: nat, most: nat) {
    && 2 * most <= U64_MAX
    && forall i :: 0 <= i < |trace| ==> trace[i].entry.cost <= most && (trace[i].entry.cost == 0 ==> fallback <= most)
  }

  /** After the first `k` entries `p` has entries still to come. */
  ghost predicate Owed(trace: seq<Served>, k: nat, p: Peer)
    requires k <= |trace|
  {
    ServedTo(trace[..k], p) != ServedTo(trace, p)
  }

  /**
   A fair drain: at any point of it, two peers that both have entries still to come were served costs that
   differ by less than twice the largest.
   */
  ghost predicate FairlyServed(trace: seq<Served>, fallback: nat) {
    forall most: nat, k: nat, p, q ::
      k <= |trace| && NoneAbove(trace, fallback, most) && Owed(trace, k, p) && Owed(trace, k, q) ==>
        Billed(ServedTo(trace[..k], p), fallback) < Billed(ServedTo(trace[..k], q), fallback) + 2 * most
  }

  lemma {:induction false} ServedIsInTrace(trace: seq<Served>, p: Peer, e: Entry)
    requires e in ServedTo(trace, p)
    ensures exists i :: 0 <= i < |trace| && trace[i].entry == e
    decreases |trace|
  {
    var m := |trace| - 1;
    if e in ServedTo(trace[..m], p) {
      ServedIsInTrace(trace[..m], p, e);
      var i :| 0 <= i < m && trace[..m][i].entry == e;
      assert trace[i].entry == e;
    } else {
      assert trace[m].entry == e;
    }
  }

  lemma NoneAboveIsAtMost(s: State, trace: seq<Served>, most: nat)
    requires NoneAbove(trace, s.fallback, most) && (forall p :: p in s.lanes ==> ServedTo(trace, p) == s.lanes[p].queue)
    ensures CostsAtMost(s, most)
  {
    hide ServedTo;
    forall p, i | p in s.lanes && 0 <= i < |s.lanes[p].queue|
      ensures s.lanes[p].queue[i].cost <= most && (s.lanes[p].queue[i].cost == 0 ==> s.fallback <= most)
    {
      ServedIsInTrace(trace, p, s.lanes[p].queue[i]);
    }
  }

  /** A finished drain was fair all along. */
  lemma DrainServesFairly(s: State, n: nat, arrivals: map<Peer, seq<Entry>>)
    requires Good(s) && Filed(s.lanes, arrivals) && |Trace(s, n)| == n
    requires forall p :: ServedTo(Trace(s, n), p) == LaneOf(Arrived(arrivals, p))
    ensures FairlyServed(Trace(s, n), s.fallback)
  {
    hide Trace, ServedTo, LaneOf, Good, Billed, CostsAtMost, NoneAbove;
    var trace := Trace(s, n);
    forall most: nat, k: nat, p, q | k <= n && NoneAbove(trace, s.fallback, most) && Owed(trace, k, p) && Owed(trace, k, q)
      ensures Billed(ServedTo(trace[..k], p), s.fallback) < Billed(ServedTo(trace[..k], q), s.fallback) + 2 * most
    {
      NoneAboveIsAtMost(s, trace, most);
      OwedIsFiled(s, trace, k, arrivals, p);
      OwedIsFiled(s, trace, k, arrivals, q);
      FairDrainInCosts(s, most, n, k, p, q);
    }
  }

  /** Only a peer with arrivals is ever owed anything. */
  lemma OwedIsFiled(s: State, trace: seq<Served>, k: nat, arrivals: map<Peer, seq<Entry>>, p: Peer)
    requires Filed(s.lanes, arrivals) && k <= |trace| && Owed(trace, k, p)
    requires forall q :: ServedTo(trace, q) == LaneOf(Arrived(arrivals, q))
    ensures p in s.lanes && ServedTo(trace[..k], p) != s.lanes[p].queue
  {
    if p !in s.lanes {
      assert ServedTo(trace, p) == [];
      ServedGrows(trace, k, p);
    }
  }

  lemma {:induction false} ServedGrows(trace: seq<Served>, k: nat, p: Peer)
    requires k <= |trace|
    ensures |ServedTo(trace[..k], p)| <= |ServedTo(trace, p)|
    decreases |trace|
  {
    if k == |trace| {
      assert trace[..k] == trace;
    } else {
      var init := trace[..|trace| - 1];
      assert init[..k] == trace[..k];
      ServedGrows(init, k, p);
    }
  }

  // ---- The queue -------------------------------------------------------------------------------------

  class TxQueue {
    var high: seq<Sent>
    var lanes: map<Peer, Lane>
    var order: seq<Peer>
    var cursor: nat
    var totalUntrusted: nat
    const cap: nat
    const perPeer: nat
    const fallback: nat
    /** What was admitted since the last drain or clear: the trusted lane, and each peer's arrivals. */
    ghost var trusted: seq<Sent>
    ghost var arrivals: map<Peer, seq<Entry>>

    ghost function View(): State
      reads this
    {
      State(lanes, order, cursor, fallback)
    }

    ghost predicate Valid()
      reads this
    {
      Sound(View(), totalUntrusted, cap, perPeer)
    }

    ghost predicate Idle()
      reads this
    {
      Valid() && cursor == 0 && high == trusted && Filed(lanes, arrivals)
    }

    constructor (cap: nat, perPeer: nat, maxTxClvmCost: nat)
      requires maxTxClvmCost <= U64_MAX
      ensures Idle() && trusted == [] && arrivals == map[]
      ensures this.cap == cap && this.perPeer == perPeer && fallback == if maxTxClvmCost == 0 then 1 else maxTxClvmCost
    {
      high, lanes, order, cursor, totalUntrusted := [], map[], [], 0, 0;
      this.cap, this.perPeer := cap, perPeer;
      fallback := if maxTxClvmCost < 1 then 1 else maxTxClvmCost;
      trusted, arrivals := [], map[];
    }

    function Length(): nat
      reads this
    {
      |high| + totalUntrusted
    }

    /** The first entry that must stand after the new one. */
    static method Position(queue: seq<Entry>, e: Entry) returns (pos: nat)
      ensures pos == InsertAt(queue, e)
    {
      pos := 0;
      while pos < |queue| && FeePerCostDesc(queue[pos], e) != Greater
        invariant pos <= InsertAt(queue, e)
      {
        pos := pos + 1;
      }
    }

    /** Admit or drop one bundle. */
    method Push(peer: Peer, bundle: Bundle, highPriority: bool, fee: nat, cost: nat) returns (admitted: bool)
      requires Idle() && fee <= U64_MAX && cost <= U64_MAX
      modifies this
      ensures Idle()
      ensures admitted <==> highPriority || (old(totalUntrusted) < cap && |Arrived(old(arrivals), peer)| < perPeer)
      ensures trusted == if highPriority then old(trusted) + [(peer, bundle)] else old(trusted)
      ensures arrivals == if admitted && !highPriority
                          then old(arrivals)[peer := Arrived(old(arrivals), peer) + [Entry(bundle, fee, cost)]]
                          else old(arrivals)
      ensures Length() == if admitted then old(Length()) + 1 else old(Length())
    {
      hide Good, Backlog, WithinCaps, Sound, Filed, InsertAt, LaneOf;
      if highPriority {
        high := high + [(peer, bundle)];
        trusted := trusted + [(peer, bundle)];
        return true;
      }
      if totalUntrusted >= cap {
        return false;
      }
      OpenedIsSound(View(), totalUntrusted, cap, perPeer, peer);
      OpenedIsFiled(View(), arrivals, peer);
      if peer !in lanes {
        order := order + [peer];
        lanes := lanes[peer := Lane([], 0)];
      }
      assert View() == Opened(old(View()), peer);
      ArrivedLength(lanes, arrivals, peer);
      if |lanes[peer].queue| >= perPeer {
        return false;
      }
      admitted := true;
      var e := Entry(bundle, fee, cost);
      QueuedIsSound(View(), totalUntrusted, cap, perPeer, peer, e);
      QueuedIsFiled(View(), arrivals, peer, e);
      var queue := lanes[peer].queue;
      var pos := Position(queue, e);
      assert pos <= |queue| by {
        InsertAtBound(queue, e);
      }
      lanes := lanes[peer := lanes[peer].(queue := queue[..pos] + [e] + queue[pos..])];
      totalUntrusted := totalUntrusted + 1;
      arrivals := arrivals[peer := Arrived(arrivals, peer) + [e]];
    }

    /** The cost of a lane's top entry; -1 for an empty lane. */
    function TopCost(lane: Lane): (cost: int)
    {
      if lane.queue == [] then -1
      else if lane.queue[0].cost > 0 then lane.queue[0].cost else fallback
    }

    /** One walk of the peers: the position of the first that can pay, or else the lowest top cost. */
    method Pass() returns (idx: int, lowest: int)
      requires Good(View()) && order != []
      ensures idx == Scan(View(), 0)
      ensures idx < 0 ==> lowest == Lowest(View(), |order|)
    {
      hide Good, Scan, Lowest, Wrap, PeerAt;
      ghost var s := View();
      WalkEnds(s);
      lowest := -1;
      var n := |order|;
      var offset := 0;
      while offset < n
        invariant offset <= n
        invariant Scan(s, 0) == Scan(s, offset) && lowest == Lowest(s, offset)
      {
        WalkStep(s, offset);
        idx := (cursor + offset) % n;
        var peer := order[idx];
        var cost := TopCost(lanes[peer]);
        if cost >= 0 {
          lowest := if lowest < 0 || cost < lowest then cost else lowest;
          if lanes[peer].deficit >= cost {
            return;
          }
        }
        offset := offset + 1;
      }
      idx := -1;
    }

    /** Add to the deficit of every peer with queued entries. */
    method Refill(add: nat)
      requires Good(View())
      modifies `lanes
      ensures View() == Refilled(old(View()), add)
    {
      ghost var target := Refilled(View(), add).lanes;
      var i := 0;
      while i < |order|
        invariant i <= |order| && lanes.Keys == target.Keys
        invariant forall p :: p in lanes ==> lanes[p] == if p in order[..i] then target[p] else old(lanes)[p]
      {
        var peer := order[i];
        assert order[..i + 1] == order[..i] + [peer];
        assert peer !in order[..i];
        if lanes[peer].queue != [] {
          lanes := lanes[peer := lanes[peer].(deficit := SaturatingAdd(lanes[peer].deficit, add))];
        }
        i := i + 1;
      }
      assert order[..i] == order;
      assert lanes == target;
    }

    /** Serve the top entry of the peer at `idx`. */
    method Serve(idx: nat) returns (sent: Sent)
      requires idx < |order| && CanPay(View(), order[idx]) && totalUntrusted > 0
      modifies `lanes, `cursor, `totalUntrusted
      ensures var t := Take(old(View()), idx);
              View() == t.rest && sent == (t.served.peer, t.served.entry.bundle)
      ensures totalUntrusted == old(totalUntrusted) - 1
    {
      var n := |order|;
      var peer := order[idx];
      var lane := lanes[peer];
      var left := lane.deficit - TopCost(lane);
      sent := (peer, lane.queue[0].bundle);
      lane := Lane(lane.queue[1..], if |lane.queue| == 1 then 0 else left);
      lanes := lanes[peer := lane];
      WrapIsMod(idx + 1, n);
      cursor := (idx + 1) % n;
      totalUntrusted := totalUntrusted - 1;
    }

    /** One deficit-round-robin pop, in at most two walks of the peers. */
    method PopUntrusted() returns (sent: Option<Sent>, ghost walks: nat)
      requires Valid()
      modifies `lanes, `cursor, `totalUntrusted
      ensures Valid() && walks <= 2
      ensures sent.None? <==> old(totalUntrusted) == 0
      ensures totalUntrusted == SaturatingSub(old(totalUntrusted), 1)
      ensures match Pop(old(View()))
              case Empty => sent.None? && View() == old(View())
              case Popped(d, rest) => sent == Some((d.peer, d.entry.bundle)) && View() == rest
    {
      hide Good, Sound, Scan, Lowest, Refilled, Take, Pop, Walked, CanPay;
      walks := 0;
      ghost var s := View();
      PopIsSound(s, totalUntrusted, cap, perPeer);
      if totalUntrusted == 0 {
        return None, walks;
      }
      StartWalk(s);
      while true
        invariant walks <= 1 && totalUntrusted == old(totalUntrusted) && Walked(s, View(), walks)
        decreases 2 - walks
      {
        WalkDecides(s, View(), walks);
        walks := walks + 1;
        var idx, lowest := Pass();
        if idx >= 0 {
          ScanPays(View());
          var d := Serve(idx);
          return Some(d), walks;
        }
        if lowest < 0 {
          return None, walks;
        }
        Refill(lowest);
      }
    }

    /** Drain everything: the trusted lane in order, then the untrusted lanes by deficit round robin. */
    method DrainBatch() returns (out: seq<Sent>, ghost trace: seq<Served>)
      requires Idle()
      modifies this
      ensures out == old(trusted) + SentOf(trace) && |out| == old(Length())
      ensures forall p :: ServedTo(trace, p) == LaneOf(Arrived(old(arrivals), p))
      ensures (forall p :: ByFee(ServedTo(trace, p), Arrived(old(arrivals), p))) && FairlyServed(trace, fallback)
      ensures trace == Trace(old(View()), |trace|)
      ensures Idle() && trusted == [] && arrivals == map[] && Length() == 0
    {
      hide Good, Sound, Filed, Pop, Backlog, LaneOf, Arrived, After, Trace, ServedTo, SentOf, ByFee, FairlyServed;
      ghost var s, total := View(), Length();
      ghost var n := 0;
      SoundIsGood(s, totalUntrusted, cap, perPeer);
      RunStart(s);
      EmptySent();
      out := high;
      high := [];
      while true
        invariant Valid() && View() == After(s, n) && |Trace(s, n)| == n && n + totalUntrusted + |old(high)| == total
        invariant out == old(high) + SentOf(Trace(s, n)) && high == [] && Good(s)
        decreases totalUntrusted
      {
        AfterIsGood(s, n);
        RunStep(s, n + 1);
        var sent, _ := PopUntrusted();
        match sent
        case None => break;
        case Some(d) =>
          SentGrows(old(high), Trace(s, n), Pop(After(s, n)).served);
          out := out + [d];
          n := n + 1;
      }
      SoundIsGood(View(), totalUntrusted, cap, perPeer);
      trace := Trace(s, n);
      SentLength(trace);
      DrainServesAll(s, n, old(arrivals));
      DrainServesByFee(trace, old(arrivals));
      DrainServesFairly(s, n, old(arrivals));
      lanes, order, cursor := map[], [], 0;
      trusted, arrivals := [], map[];
      EmptyIsIdle(View(), cap, perPeer);
    }

    /** Drop everything queued. */
    method Clear()
      requires Idle()
      modifies this
      ensures Idle() && trusted == [] && arrivals == map[] && Length() == 0
    {
      hide Good, Sound, Filed;
      SoundIsGood(View(), totalUntrusted, cap, perPeer);
      high, lanes, order, cursor, totalUntrusted := [], map[], [], 0, 0;
      trusted, arrivals := [], map[];
      EmptyIsIdle(View(), cap, perPeer);
    }
  }

  lemma InsertAtBound(q: seq<Entry>, e: Entry)
    ensures InsertAt(q, e) <= |q|
  {
  }
}
