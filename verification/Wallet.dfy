/**
 Wallet subscriptions: who is subscribed to what, and the reverse indexes that answer which peers a
 coin concerns.
 */
module Wallet {
  import opened Arithmetic
  import opened Coins

  type Peer = nat
  type Item = nat

  datatype Subscriber = Subscriber(puzzleHashes: set<Item>, coinIds: set<Item>)

  type Wants = map<Peer, set<Item>>
  type Index = map<Item, set<Peer>>

  function Wanted(wants: Wants, p: Peer): set<Item> {
    if p in wants then wants[p] else {}
  }

  function Bucket(ix: Index, item: Item): set<Peer> {
    if item in ix then ix[item] else {}
  }

  /** A peer is in an item's bucket exactly when it wants the item, and no bucket is empty. */
  ghost predicate Indexed(ix: Index, wants: Wants) {
    && (forall item :: item in ix ==> ix[item] != {})
    && (forall item, p :: p in Bucket(ix, item) <==> item in Wanted(wants, p))
  }

  function Enter(ix: Index, item: Item, p: Peer): Index {
    ix[item := Bucket(ix, item) + {p}]
  }

  function Scrub(ix: Index, item: Item, p: Peer): Index {
    if item !in ix then ix
    else if ix[item] - {p} == {} then ix - {item}
    else ix[item := ix[item] - {p}]
  }

  lemma BucketAfterEnter(ix: Index, item: Item, p: Peer, x: Item)
    ensures Bucket(Enter(ix, item, p), x) == if x == item then Bucket(ix, x) + {p} else Bucket(ix, x)
  {
  }

  lemma BucketAfterScrub(ix: Index, item: Item, p: Peer, x: Item)
    ensures Bucket(Scrub(ix, item, p), x) == if x == item then Bucket(ix, x) - {p} else Bucket(ix, x)
  {
  }

  lemma EnterIndexed(ix: Index, wants: Wants, item: Item, p: Peer)
    requires Indexed(ix, wants)
    ensures Indexed(Enter(ix, item, p), wants[p := Wanted(wants, p) + {item}])
  {
    var r, w := Enter(ix, item, p), wants[p := Wanted(wants, p) + {item}];
    forall x, q
      ensures q in Bucket(r, x) <==> x in Wanted(w, q)
    {
      BucketAfterEnter(ix, item, p, x);
      assert q in Bucket(ix, x) <==> x in Wanted(wants, q);
    }
  }

  lemma ScrubIndexed(ix: Index, wants: Wants, item: Item, p: Peer)
    requires Indexed(ix, wants)
    ensures Indexed(Scrub(ix, item, p), wants[p := Wanted(wants, p) - {item}])
  {
    var r, w := Scrub(ix, item, p), wants[p := Wanted(wants, p) - {item}];
    forall x, q
      ensures q in Bucket(r, x) <==> x in Wanted(w, q)
    {
      BucketAfterScrub(ix, item, p, x);
      assert q in Bucket(ix, x) <==> x in Wanted(wants, q);
    }
  }

  /** Only what each peer wants matters. */
  lemma SameWants(ix: Index, a: Wants, b: Wants)
    requires Indexed(ix, a) && forall p :: Wanted(a, p) == Wanted(b, p)
    ensures Indexed(ix, b)
  {
    forall x, q
      ensures q in Bucket(ix, x) <==> x in Wanted(b, q)
    {
      assert q in Bucket(ix, x) <==> x in Wanted(a, q);
    }
  }

  function Elements(s: seq<Item>): set<Item> {
    set x | x in s
  }

  /** The wants with one peer's set replaced. */
  function With(wants: Wants, p: Peer, items: set<Item>): Wants {
    wants[p := items]
  }

  lemma EnterOne(ix: Index, wants: Wants, p: Peer, have: set<Item>, item: Item)
    requires Indexed(ix, With(wants, p, have))
    ensures Indexed(Enter(ix, item, p), With(wants, p, have + {item}))
  {
    hide Indexed;
    EnterIndexed(ix, With(wants, p, have), item, p);
    assert With(wants, p, have)[p := have + {item}] == With(wants, p, have + {item});
  }

  lemma ScrubOne(ix: Index, wants: Wants, p: Peer, have: set<Item>, item: Item)
    requires Indexed(ix, With(wants, p, have))
    ensures Indexed(Scrub(ix, item, p), With(wants, p, have - {item}))
  {
    hide Indexed;
    ScrubIndexed(ix, With(wants, p, have), item, p);
    assert With(wants, p, have)[p := have - {item}] == With(wants, p, have - {item});
  }

  lemma ElementsGrow(s: seq<Item>, i: nat)
    requires i < |s|
    ensures Elements(s[..i + 1]) == Elements(s[..i]) + {s[i]}
  {
  }

  method EnterAll(index: Index, items: seq<Item>, p: Peer, ghost wants: Wants) returns (ix: Index)
    requires Indexed(index, wants)
    ensures Indexed(ix, With(wants, p, Wanted(wants, p) + Elements(items)))
  {
    ix := index;
    ghost var have := Wanted(wants, p);
    SameWants(ix, wants, With(wants, p, have));
    hide Indexed, Enter, With, Wanted;
    for i := 0 to |items|
      invariant have == Wanted(wants, p) + Elements(items[..i]) && Indexed(ix, With(wants, p, have))
    {
      EnterOne(ix, wants, p, have, items[i]);
      ix := Enter(ix, items[i], p);
      have := have + {items[i]};
      ElementsGrow(items, i);
    }
    assert items[..|items|] == items;
  }

  method ScrubAll(index: Index, items: seq<Item>, p: Peer, ghost wants: Wants) returns (ix: Index)
    requires Indexed(index, wants)
    ensures Indexed(ix, With(wants, p, Wanted(wants, p) - Elements(items)))
  {
    ix := index;
    ghost var have := Wanted(wants, p);
    SameWants(ix, wants, With(wants, p, have));
    hide Indexed, Scrub, With, Wanted;
    for i := 0 to |items|
      invariant have == Wanted(wants, p) - Elements(items[..i]) && Indexed(ix, With(wants, p, have))
    {
      ScrubOne(ix, wants, p, have, items[i]);
      ix := Scrub(ix, items[i], p);
      have := have - {items[i]};
      ElementsGrow(items, i);
    }
    assert items[..|items|] == items;
  }

  // ---- What a register call admits ------------------------------------------------------------------------

  /** The items a register call adds: the new ones, in order, until `room` are added. */
  function Admitted(items: seq<Item>, have: set<Item>, room: nat): (added: seq<Item>)
    ensures |added| <= room
  {
    if items == [] || room == 0 then []
    else if items[0] in have then Admitted(items[1..], have, room)
    else [items[0]] + Admitted(items[1..], have + {items[0]}, room - 1)
  }

  /** Each admitted item is new and listed, and appears once. */
  lemma {:induction false} AdmittedIsNew(items: seq<Item>, have: set<Item>, room: nat)
    ensures Elements(Admitted(items, have, room)) !! have
    ensures Elements(Admitted(items, have, room)) <= Elements(items)
    ensures |Elements(Admitted(items, have, room))| == |Admitted(items, have, room)|
    decreases |items|
  {
    if items != [] && room > 0 {
      var rest := items[1..];
      assert Elements(items) == {items[0]} + Elements(rest);
      if items[0] in have {
        AdmittedIsNew(rest, have, room);
      } else {
        var tail := Admitted(rest, have + {items[0]}, room - 1);
        AdmittedIsNew(rest, have + {items[0]}, room - 1);
        assert Elements([items[0]] + tail) == {items[0]} + Elements(tail);
      }
    }
  }

  /** With room to spare everything listed is admitted; an item is left out only when the cap is met. */
  lemma {:induction false} AdmittedIsAll(items: seq<Item>, have: set<Item>, room: nat)
    ensures |Admitted(items, have, room)| < room ==> Elements(items) <= have + Elements(Admitted(items, have, room))
    decreases |items|
  {
    if items != [] && room > 0 {
      var rest := items[1..];
      assert Elements(items) == {items[0]} + Elements(rest);
      if items[0] in have {
        AdmittedIsAll(rest, have, room);
      } else {
        var tail := Admitted(rest, have + {items[0]}, room - 1);
        AdmittedIsAll(rest, have + {items[0]}, room - 1);
        assert Elements([items[0]] + tail) == {items[0]} + Elements(tail);
      }
    }
  }

  lemma AdmittedStep(items: seq<Item>, i: nat, have: set<Item>, room: nat)
    requires i < |items| && room > 0
    ensures Admitted(items[i..], have, room) ==
            if items[i] in have then Admitted(items[i + 1..], have, room)
            else [items[i]] + Admitted(items[i + 1..], have + {items[i]}, room - 1)
  {
    assert items[i..][1..] == items[i + 1..];
  }

  lemma AddElement(s: seq<Item>, x: Item)
    ensures Elements(s + [x]) == Elements(s) + {x}
  {
  }

  /** Where the loop stands: `added` so far, and what the rest of the list still admits. */
  ghost predicate Admitting(items: seq<Item>, have: set<Item>, others: nat, cap: nat, i: nat, now: set<Item>, added: seq<Item>) {
    && i <= |items| && now == have + Elements(added)
    && Admitted(items, have, SaturatingSub(cap, |have| + others)) ==
       added + Admitted(items[i..], now, SaturatingSub(cap, |now| + others))
  }

  lemma AdmitStarts(items: seq<Item>, have: set<Item>, others: nat, cap: nat)
    ensures Admitting(items, have, others, cap, 0, have, [])
  {
    hide Admitted;
    assert items[0..] == items && have + Elements([]) == have;
  }

  lemma AdmitSteps(items: seq<Item>, have: set<Item>, others: nat, cap: nat, i: nat, now: set<Item>, added: seq<Item>)
    requires Admitting(items, have, others, cap, i, now, added) && i < |items| && |now| + others < cap
    ensures if items[i] in now then Admitting(items, have, others, cap, i + 1, now, added)
            else Admitting(items, have, others, cap, i + 1, now + {items[i]}, added + [items[i]])
  {
    hide Admitted, Elements;
    var room := SaturatingSub(cap, |now| + others);
    AdmittedStep(items, i, now, room);
    AddElement(added, items[i]);
    if items[i] !in now {
      var more := Admitted(items[i + 1..], now + {items[i]}, room - 1);
      assert added + ([items[i]] + more) == added + [items[i]] + more;
    }
  }

  lemma AdmitEnds(items: seq<Item>, have: set<Item>, others: nat, cap: nat, i: nat, now: set<Item>, added: seq<Item>)
    requires Admitting(items, have, others, cap, i, now, added) && (i == |items| || |now| + others >= cap)
    ensures added == Admitted(items, have, SaturatingSub(cap, |have| + others)) && now == have + Elements(added)
  {
    hide Admitted, Elements;
    AdmittedEnds(items[i..], now, SaturatingSub(cap, |now| + others));
    assert added + [] == added;
  }

  /** Add listed items to a peer's set until its cap is met; `others` counts its other items. */
  method Admit(items: seq<Item>, have: set<Item>, others: nat, cap: nat) returns (now: set<Item>, added: seq<Item>)
    ensures added == Admitted(items, have, SaturatingSub(cap, |have| + others))
    ensures now == have + Elements(added)
  {
    hide Admitting, Admitted, Elements;
    AdmitStarts(items, have, others, cap);
    now, added := have, [];
    var i := 0;
    while i < |items| && |now| + others < cap
      invariant i <= |items| && Admitting(items, have, others, cap, i, now, added)
    {
      AdmitSteps(items, have, others, cap, i, now, added);
      if items[i] !in now {
        now := now + {items[i]};
        added := added + [items[i]];
      }
      i := i + 1;
    }
    AdmitEnds(items, have, others, cap, i, now, added);
  }

  lemma AdmittedEnds(items: seq<Item>, have: set<Item>, room: nat)
    ensures items == [] || room == 0 ==> Admitted(items, have, room) == []
  {
  }

  /** The cap holds for what a call leaves behind, unless the peer was over it before. */
  lemma AdmittedFits(items: seq<Item>, have: set<Item>, others: nat, cap: nat)
    ensures var now := have + Elements(Admitted(items, have, SaturatingSub(cap, |have| + others)));
            |now| + others <= cap || now == have
  {
    var added := Admitted(items, have, SaturatingSub(cap, |have| + others));
    AdmittedIsNew(items, have, SaturatingSub(cap, |have| + others));
    assert |have + Elements(added)| == |have| + |Elements(added)|;
    if added == [] {
      assert have + Elements(added) == have;
    }
  }

  // ---- The registry --------------------------------------------------------------------------------------------

  datatype RegisterError = TooManySubscribers

  function PuzzleHashes(subs: map<Peer, Subscriber>): Wants {
    map p | p in subs :: subs[p].puzzleHashes
  }

  function CoinIds(subs: map<Peer, Subscriber>): Wants {
    map p | p in subs :: subs[p].coinIds
  }

  ghost predicate Agree(subs: map<Peer, Subscriber>, byPh: Index, byCoin: Index) {
    Indexed(byPh, PuzzleHashes(subs)) && Indexed(byCoin, CoinIds(subs))
  }

  lemma PhsWith(subs: map<Peer, Subscriber>, p: Peer, s: Subscriber)
    ensures PuzzleHashes(subs[p := s]) == With(PuzzleHashes(subs), p, s.puzzleHashes)
    ensures CoinIds(subs[p := s]) == With(CoinIds(subs), p, s.coinIds)
    ensures p in subs ==> Wanted(PuzzleHashes(subs), p) == subs[p].puzzleHashes && Wanted(CoinIds(subs), p) == subs[p].coinIds
  {
  }

  /** The linear scan that the indexes stand for. */
  predicate Interested(subs: map<Peer, Subscriber>, p: Peer, puzzleHash: Item, coinId: Item, hint: Option<Item>) {
    && p in subs
    && (puzzleHash in subs[p].puzzleHashes || coinId in subs[p].coinIds || (hint.Some? && hint.value in subs[p].puzzleHashes))
  }

  /** The distinct listed items that the peer has, each once, in order. */
  function Present(items: seq<Item>, have: set<Item>): seq<Item> {
    if items == [] then []
    else if items[0] in have then [items[0]] + Present(items[1..], have - {items[0]})
    else Present(items[1..], have)
  }

  lemma {:induction false} PresentIs(items: seq<Item>, have: set<Item>)
    ensures Elements(Present(items, have)) == Elements(items) * have
    ensures |Elements(Present(items, have))| == |Present(items, have)|
    decreases |items|
  {
    if items != [] {
      var rest := items[1..];
      assert Elements(items) == {items[0]} + Elements(rest);
      if items[0] in have {
        var tail := Present(rest, have - {items[0]});
        PresentIs(rest, have - {items[0]});
        assert Elements([items[0]] + tail) == {items[0]} + Elements(tail);
      } else {
        PresentIs(rest, have);
      }
    }
  }

  class Registry {
    var subs: map<Peer, Subscriber>
    var byPh: Index
    var byCoin: Index
    const maxSubscribers: nat

    ghost predicate Valid()
      reads this
    {
      Agree(subs, byPh, byCoin) && |subs.Keys| <= maxSubscribers
    }

    constructor (maxSubscribers: nat)
      ensures Valid() && subs == map[] && this.maxSubscribers == maxSubscribers
    {
      subs, byPh, byCoin := map[], map[], map[];
      this.maxSubscribers := maxSubscribers;
    }

    /** The peers a coin concerns: exactly those a scan of all subscribers would find. */
    method MatchPeers(puzzleHash: Item, coinId: Item, hint: Option<Item>) returns (peers: set<Peer>)
      requires Valid()
      ensures forall p :: p in peers <==> Interested(subs, p, puzzleHash, coinId, hint)
    {
      peers := {};
      if puzzleHash in byPh {
        peers := peers + byPh[puzzleHash];
      }
      if coinId in byCoin {
        peers := peers + byCoin[coinId];
      }
      if hint.Some? && hint.value in byPh {
        peers := peers + byPh[hint.value];
      }
      forall p
        ensures p in peers <==> Interested(subs, p, puzzleHash, coinId, hint)
      {
        assert p in Bucket(byPh, puzzleHash) <==> puzzleHash in Wanted(PuzzleHashes(subs), p);
        assert p in Bucket(byCoin, coinId) <==> coinId in Wanted(CoinIds(subs), p);
        if hint.Some? {
          assert p in Bucket(byPh, hint.value) <==> hint.value in Wanted(PuzzleHashes(subs), p);
        }
      }
    }

    /** Make sure the peer is a subscriber; true when it was not one before. */
    method EnsureChannel(peer: Peer) returns (r: Result<bool, RegisterError>)
      requires Valid()
      modifies `subs
      ensures Valid()
      ensures r.Err? <==> peer !in old(subs) && |old(subs).Keys| >= maxSubscribers
      ensures r.Err? ==> subs == old(subs)
      ensures r.Ok? ==> r.value == (peer !in old(subs))
      ensures r.Ok? ==> subs == if peer in old(subs) then old(subs) else old(subs)[peer := Subscriber({}, {})]
    {
      if peer in subs {
        return Ok(false);
      }
      if |subs.Keys| >= maxSubscribers {
        return Err(TooManySubscribers);
      }
      NewcomerAgrees(subs, byPh, byCoin, peer);
      hide Agree;
      subs := subs[peer := Subscriber({}, {})];
      assert subs.Keys == old(subs).Keys + {peer};
      return Ok(true);
    }

    /** Subscribe a peer to puzzle hashes, up to its cap. */
    method RegisterForPhUpdates(peer: Peer, cap: nat, items: seq<Item>) returns (r: Result<(bool, seq<Item>), RegisterError>)
      requires Valid()
      modifies this
      ensures Valid()
      ensures r.Err? <==> peer !in old(subs) && |old(subs).Keys| >= maxSubscribers
      ensures r.Err? ==> subs == old(subs)
      ensures r.Ok? ==> var was := SubscriberOf(old(subs), peer);
                        && r.value.0 == (peer !in old(subs))
                        && r.value.1 == Admitted(items, was.puzzleHashes, SaturatingSub(cap, Count(was)))
                        && subs == old(subs)[peer := was.(puzzleHashes := was.puzzleHashes + Elements(r.value.1))]
                        && (Count(subs[peer]) <= cap || subs[peer] == was)
    {
      hide Indexed, Agree, Admitted, Elements, PuzzleHashes, CoinIds, Wanted, With;
      var opening := EnsureChannel(peer);
      if opening.Err? {
        return Err(opening.error);
      }
      var sub := subs[peer];
      var now, added := Admit(items, sub.puzzleHashes, |sub.coinIds|, cap);
      AdmittedFits(items, sub.puzzleHashes, |sub.coinIds|, cap);
      AgreeParts(subs, byPh, byCoin);
      byPh := EnterAll(byPh, added, peer, PuzzleHashes(subs));
      PhsWith(subs, peer, sub.(puzzleHashes := now));
      KeepsOther(byCoin, subs, peer, sub.(puzzleHashes := now));
      subs := subs[peer := sub.(puzzleHashes := now)];
      AgreeWhole(subs, byPh, byCoin);
      assert subs.Keys == old(subs).Keys + {peer};
      return Ok((opening.value, added));
    }

    /** Subscribe a peer to coin ids, up to its cap. */
    method RegisterForCoinUpdates(peer: Peer, cap: nat, items: seq<Item>) returns (r: Result<(bool, seq<Item>), RegisterError>)
      requires Valid()
      modifies this
      ensures Valid()
      ensures r.Err? <==> peer !in old(subs) && |old(subs).Keys| >= maxSubscribers
      ensures r.Err? ==> subs == old(subs)
      ensures r.Ok? ==> var was := SubscriberOf(old(subs), peer);
                        && r.value.0 == (peer !in old(subs))
                        && r.value.1 == Admitted(items, was.coinIds, SaturatingSub(cap, Count(was)))
                        && subs == old(subs)[peer := was.(coinIds := was.coinIds + Elements(r.value.1))]
                        && (Count(subs[peer]) <= cap || subs[peer] == was)
    {
      hide Indexed, Agree, Admitted, Elements, PuzzleHashes, CoinIds, Wanted, With;
      var opening := EnsureChannel(peer);
      if opening.Err? {
        return Err(opening.error);
      }
      var sub := subs[peer];
      var now, added := Admit(items, sub.coinIds, |sub.puzzleHashes|, cap);
      AdmittedFits(items, sub.coinIds, |sub.puzzleHashes|, cap);
      AgreeParts(subs, byPh, byCoin);
      byCoin := EnterAll(byCoin, added, peer, CoinIds(subs));
      PhsWith(subs, peer, sub.(coinIds := now));
      KeepsOther(byPh, subs, peer, sub.(coinIds := now));
      subs := subs[peer := sub.(coinIds := now)];
      AgreeWhole(subs, byPh, byCoin);
      assert subs.Keys == old(subs).Keys + {peer};
      return Ok((opening.value, added));
    }

    /** Drop all, or the listed, puzzle-hash subscriptions of a peer. */
    method RemovePhSubscriptions(peer: Peer, items: Option<seq<Item>>) returns (removed: seq<Item>)
      requires Valid()
      modifies this
      ensures Valid()
      ensures var was := SubscriberOf(old(subs), peer).puzzleHashes;
              && Elements(removed) == (if items.None? then was else was * Elements(items.value))
              && |removed| == |Elements(removed)|
              && (items.Some? ==> removed == Present(items.value, was))
      ensures subs == if peer !in old(subs) then old(subs) else
                old(subs)[peer := old(subs)[peer].(puzzleHashes := old(subs)[peer].puzzleHashes - Elements(removed))]
    {
      if peer !in subs {
        assert Elements([]) == {};
        NonePresent(items);
        return [];
      }
      hide Indexed, Agree, Present, Elements, PuzzleHashes, CoinIds, Wanted, With;
      var sub := subs[peer];
      removed := Removable(items, sub.puzzleHashes);
      AgreeParts(subs, byPh, byCoin);
      byPh := ScrubAll(byPh, removed, peer, PuzzleHashes(subs));
      var left := sub.(puzzleHashes := sub.puzzleHashes - Elements(removed));
      PhsWith(subs, peer, left);
      KeepsOther(byCoin, subs, peer, left);
      subs := subs[peer := left];
      AgreeWhole(subs, byPh, byCoin);
      assert subs.Keys == old(subs).Keys;
    }

    /** Drop all, or the listed, coin subscriptions of a peer. */
    method RemoveCoinSubscriptions(peer: Peer, items: Option<seq<Item>>) returns (removed: seq<Item>)
      requires Valid()
      modifies this
      ensures Valid()
      ensures var was := SubscriberOf(old(subs), peer).coinIds;
              && Elements(removed) == (if items.None? then was else was * Elements(items.value))
              && |removed| == |Elements(removed)|
              && (items.Some? ==> removed == Present(items.value, was))
      ensures subs == if peer !in old(subs) then old(subs) else
                old(subs)[peer := old(subs)[peer].(coinIds := old(subs)[peer].coinIds - Elements(removed))]
    {
      if peer !in subs {
        assert Elements([]) == {};
        NonePresent(items);
        return [];
      }
      hide Indexed, Agree, Present, Elements, PuzzleHashes, CoinIds, Wanted, With;
      var sub := subs[peer];
      removed := Removable(items, sub.coinIds);
      AgreeParts(subs, byPh, byCoin);
      byCoin := ScrubAll(byCoin, removed, peer, CoinIds(subs));
      var left := sub.(coinIds := sub.coinIds - Elements(removed));
      PhsWith(subs, peer, left);
      KeepsOther(byPh, subs, peer, left);
      subs := subs[peer := left];
      AgreeWhole(subs, byPh, byCoin);
      assert subs.Keys == old(subs).Keys;
    }

    /** Remove a peer and every trace of it. */
    method DropPeer(peer: Peer)
      requires Valid()
      modifies this
      ensures Valid() && subs == old(subs) - {peer}
    {
      if peer !in subs {
        return;
      }
      hide Indexed, Agree, Elements;
      var sub := subs[peer];
      AgreeParts(subs, byPh, byCoin);
      var phs := Listing(sub.puzzleHashes);
      byPh := ScrubAll(byPh, phs, peer, PuzzleHashes(subs));
      var ids := Listing(sub.coinIds);
      byCoin := ScrubAll(byCoin, ids, peer, CoinIds(subs));
      Forgotten(byPh, PuzzleHashes(subs), PuzzleHashes(subs - {peer}), peer);
      Forgotten(byCoin, CoinIds(subs), CoinIds(subs - {peer}), peer);
      subs := subs - {peer};
      AgreeWhole(subs, byPh, byCoin);
      assert subs.Keys == old(subs).Keys - {peer};
    }

    /** Keep only the peers that are still connected. */
    method RetainLive(live: set<Peer>)
      requires Valid()
      modifies this
      ensures Valid() && subs == map p | p in old(subs) && p in live :: old(subs)[p]
    {
      hide Agree, Remaining;
      var gone := subs.Keys - live;
      ghost var all := subs;
      RemainingAt(all, live);
      while gone != {}
        invariant Valid() && subs == Remaining(all, live, gone) && gone !! live
        decreases gone
      {
        var peer :| peer in gone;
        RemainingStep(all, live, gone, peer);
        DropPeer(peer);
        gone := gone - {peer};
      }
    }
  }

  /** The subscribers left while those in `gone` are still to be dropped. */
  function Remaining(all: map<Peer, Subscriber>, live: set<Peer>, gone: set<Peer>): map<Peer, Subscriber> {
    map p | p in all && (p in live || p in gone) :: all[p]
  }

  lemma RemainingAt(all: map<Peer, Subscriber>, live: set<Peer>)
    ensures Remaining(all, live, all.Keys - live) == all
    ensures Remaining(all, live, {}) == map p | p in all && p in live :: all[p]
  {
  }

  lemma RemainingStep(all: map<Peer, Subscriber>, live: set<Peer>, gone: set<Peer>, p: Peer)
    requires p !in live
    ensures Remaining(all, live, gone) - {p} == Remaining(all, live, gone - {p})
  {
  }

  function SubscriberOf(subs: map<Peer, Subscriber>, p: Peer): Subscriber {
    if p in subs then subs[p] else Subscriber({}, {})
  }

  function Count(s: Subscriber): nat {
    |s.puzzleHashes| + |s.coinIds|
  }

  lemma AgreeParts(subs: map<Peer, Subscriber>, byPh: Index, byCoin: Index)
    requires Agree(subs, byPh, byCoin)
    ensures Indexed(byPh, PuzzleHashes(subs)) && Indexed(byCoin, CoinIds(subs))
  {
  }

  lemma AgreeWhole(subs: map<Peer, Subscriber>, byPh: Index, byCoin: Index)
    requires Indexed(byPh, PuzzleHashes(subs)) && Indexed(byCoin, CoinIds(subs))
    ensures Agree(subs, byPh, byCoin)
  {
  }

  lemma NewcomerAgrees(subs: map<Peer, Subscriber>, byPh: Index, byCoin: Index, p: Peer)
    requires Agree(subs, byPh, byCoin) && p !in subs
    ensures Agree(subs[p := Subscriber({}, {})], byPh, byCoin)
  {
    hide Indexed;
    var more := subs[p := Subscriber({}, {})];
    SameWants(byPh, PuzzleHashes(subs), PuzzleHashes(more));
    SameWants(byCoin, CoinIds(subs), CoinIds(more));
  }

  /** A change of one kind of subscription leaves the other kind's index right. */
  lemma KeepsOther(ix: Index, subs: map<Peer, Subscriber>, p: Peer, s: Subscriber)
    requires p in subs
    ensures Indexed(ix, CoinIds(subs)) && s.coinIds == subs[p].coinIds ==> Indexed(ix, CoinIds(subs[p := s]))
    ensures Indexed(ix, PuzzleHashes(subs)) && s.puzzleHashes == subs[p].puzzleHashes ==> Indexed(ix, PuzzleHashes(subs[p := s]))
  {
    hide Indexed;
    if Indexed(ix, CoinIds(subs)) && s.coinIds == subs[p].coinIds {
      SameWants(ix, CoinIds(subs), CoinIds(subs[p := s]));
    }
    if Indexed(ix, PuzzleHashes(subs)) && s.puzzleHashes == subs[p].puzzleHashes {
      SameWants(ix, PuzzleHashes(subs), PuzzleHashes(subs[p := s]));
    }
  }

  /** Once scrubbed of all it wanted, a peer can be forgotten. */
  lemma Forgotten(ix: Index, wants: Wants, rest: Wants, p: Peer)
    requires p in wants && Indexed(ix, With(wants, p, wants[p] - wants[p])) && rest == wants - {p}
    ensures Indexed(ix, rest)
  {
    hide Indexed;
    SameWants(ix, With(wants, p, wants[p] - wants[p]), rest);
  }

  lemma {:induction false} NonePresent(items: Option<seq<Item>>)
    ensures items.Some? ==> Present(items.value, {}) == []
    decreases if items.Some? then |items.value| else 0
  {
    if items.Some? && items.value != [] {
      NonePresent(Some(items.value[1..]));
    }
  }

  /** A set as a sequence. */
  method Listing(s: set<Item>) returns (r: seq<Item>)
    ensures Elements(r) == s && |r| == |s|
  {
    r := [];
    var left := s;
    while left != {}
      invariant Elements(r) + left == s && Elements(r) !! left && |r| + |left| == |s|
      decreases left
    {
      var x :| x in left;
      AddElement(r, x);
      r := r + [x];
      left := left - {x};
    }
  }

  /** What a removal request removes: everything, or the listed items that are there. */
  method Removable(items: Option<seq<Item>>, have: set<Item>) returns (removed: seq<Item>)
    ensures Elements(removed) == (if items.None? then have else have * Elements(items.value))
    ensures |removed| == |Elements(removed)|
    ensures items.Some? ==> removed == Present(items.value, have)
  {
    if items.None? {
      removed := Listing(have);
    } else {
      removed := [];
      var left, i := have, 0;
      PresentIs(items.value, have);
      assert items.value[0..] == items.value;
      hide Elements;
      while i < |items.value|
        invariant i <= |items.value|
        invariant Present(items.value, have) == removed + Present(items.value[i..], left)
      {
        assert items.value[i..][1..] == items.value[i + 1..];
        if items.value[i] in left {
          left := left - {items.value[i]};
          removed := removed + [items.value[i]];
        }
        i := i + 1;
      }
      assert removed + [] == removed;
    }
  }
}
