/**
 The block archive: records and bodies by hash, the main-chain flags, the peak and the coin table,
 as one store value. `World` is the block content each hash commits to, so a record, a body and a
 delta held under one hash always describe the same block.
 */
module Archive {
  import opened Coins
  import opened CoinTable
  import opened Chain

  type World = Hash -> Block

  /** The parent hash every genesis block declares; no block has it as its own hash. */
  const GENESIS_CHALLENGE: Hash := 0

  datatype Peak = Peak(hash: Hash, height: nat)

  datatype Store = Store(records: map<Hash, BlockRecord>, bodies: map<Hash, Block>, main: set<Hash>,
                         peak: Option<Peak>, coins: Table)

  const EMPTY_STORE: Store := Store(map[], map[], {}, None, map[])

  /** The blocks from height 0 up to `h`, which stands at height `n`. */
  ghost function Branch(w: World, h: Hash, n: nat): (c: seq<Block>)
    ensures |c| == n + 1 && c[n] == w(h)
    decreases n
  {
    if n == 0 then [w(h)] else Branch(w, w(h).prev, n - 1) + [w(h)]
  }

  ghost function Tip(w: World, h: Hash): (c: seq<Block>)
    ensures |c| == w(h).height + 1 && c[|c| - 1] == w(h)
  {
    Branch(w, h, w(h).height)
  }

  /** Archive a block: its record and its body. */
  function Persist(s: Store, b: Block): Store {
    s.(records := s.records[b.hash := RecordOf(b)], bodies := s.bodies[b.hash := b])
  }

  function HashesOf(chain: seq<Block>): set<Hash> {
    set b | b in chain :: b.hash
  }

  /** A record sits one above its parent's record, and weighs more; a genesis record has no parent. */
  ghost predicate Linked(w: World, known: set<Hash>, h: Hash) {
    && w(h).hash == h != GENESIS_CHALLENGE
    && (w(h).height == 0 ==> w(h).prev == GENESIS_CHALLENGE && w(h).IsTx())
    && (w(h).height > 0 ==> && w(h).prev in known
                            && w(w(h).prev).height + 1 == w(h).height
                            && w(w(h).prev).weight < w(h).weight)
  }

  /** `h` and all its ancestors down to height 0 have bodies. */
  ghost predicate Complete(w: World, bodies: set<Hash>, h: Hash, n: nat)
    decreases n
  {
    h in bodies && (n > 0 ==> Complete(w, bodies, w(h).prev, n - 1))
  }

  ghost predicate AllLinked(w: World, known: set<Hash>) {
    forall h {:trigger Linked(w, known, h)} :: h in known ==> Linked(w, known, h)
  }

  /** The rows stored under `h` describe block `h`. */
  ghost predicate GoodRows(w: World, s: Store, h: Hash) {
    && (h in s.records ==> s.records[h] == RecordOf(w(h)))
    && (h in s.bodies ==> h in s.records && s.bodies[h] == w(h))
  }

  /** A stored transaction block was validated on its own branch. */
  ghost predicate VettedAt(w: World, s: Store, h: Hash) {
    h in s.bodies && w(h).IsTx() ==> Complete(w, s.bodies.Keys, h, w(h).height) && ValidChain(Tip(w, h))
  }

  ghost predicate Vetted(w: World, s: Store) {
    forall h {:trigger VettedAt(w, s, h)} :: VettedAt(w, s, h)
  }

  /** Archive rows agree with the world, and parents are archived. */
  ghost predicate GoodArchive(w: World, s: Store) {
    && AllLinked(w, s.records.Keys)
    && (forall h {:trigger GoodRows(w, s, h)} :: GoodRows(w, s, h))
  }

  /** The main chain is the peak's ancestry. */
  ghost predicate PeakFlags(w: World, s: Store) {
    match s.peak
    case None => s.main == {}
    case Some(p) => p.hash in s.records && p.height == w(p.hash).height && s.main == HashesOf(Tip(w, p.hash))
  }

  /** The ledger law: the main chain's bodies are all stored, and the coin table is its replay. */
  ghost predicate Replayed(w: World, s: Store) {
    match s.peak
    case None => s.coins == map[]
    case Some(p) => Complete(w, s.bodies.Keys, p.hash, w(p.hash).height) && s.coins == Replay(Tip(w, p.hash))
  }

  /** Rows and flags are in order, whatever the coin table says. */
  ghost predicate Shaped(w: World, s: Store) {
    GoodArchive(w, s) && PeakFlags(w, s)
  }

  /** The whole invariant: rows and flags in order, stored spends validated, and the ledger law. */
  ghost predicate GoodStore(w: World, s: Store) {
    Shaped(w, s) && Vetted(w, s) && Replayed(w, s)
  }

  // ---- Branches ---------------------------------------------------------------------------------

  /** Each block of a known branch is known, stands at its index above its parent, and ends its own branch. */
  lemma {:induction false} BranchAt(w: World, known: set<Hash>, h: Hash, i: nat)
    requires AllLinked(w, known)
    requires h in known && i <= w(h).height
    ensures var b := Tip(w, h)[i];
            && b.hash in known && w(b.hash) == b && b.height == i
            && Tip(w, b.hash) == Tip(w, h)[..i + 1]
            && (i > 0 ==> b.prev == Tip(w, h)[i - 1].hash)
    decreases w(h).height
  {
    var c, p := Tip(w, h), w(h).prev;
    assert Linked(w, known, h) && (p in known ==> Linked(w, known, p));
    if i == w(h).height {
      assert c[..i + 1] == c;
    } else {
      BranchAt(w, known, p, i);
      assert c == Tip(w, p) + [w(h)];
      assert c[..i + 1] == Tip(w, p)[..i + 1];
    }
  }

  /** Two known branches through one block agree up to that block. */
  lemma CommonPrefix(w: World, known: set<Hash>, a: Hash, b: Hash, i: nat, j: nat)
    requires AllLinked(w, known)
    requires a in known && b in known && i <= w(a).height && j <= w(b).height
    requires Tip(w, a)[i].hash == Tip(w, b)[j].hash
    ensures i == j && Tip(w, a)[..i + 1] == Tip(w, b)[..i + 1]
  {
    BranchAt(w, known, a, i);
    BranchAt(w, known, b, j);
  }

  lemma {:induction false} CompleteAt(w: World, bodies: set<Hash>, h: Hash, n: nat, i: nat)
    requires Complete(w, bodies, h, n) && i <= n
    ensures Complete(w, bodies, if i == n then h else Branch(w, h, n)[i + 1].prev, i)
    decreases n
  {
    if i < n {
      CompleteAt(w, bodies, w(h).prev, n - 1, i);
    }
  }

  lemma {:induction false} CompleteGrows(w: World, bodies: set<Hash>, more: set<Hash>, h: Hash, n: nat)
    requires bodies <= more && Complete(w, bodies, h, n)
    ensures Complete(w, more, h, n)
    decreases n
  {
    if n > 0 {
      CompleteGrows(w, bodies, more, w(h).prev, n - 1);
    }
  }

  /** A branch whose bodies are all stored is a valid chain. */
  lemma {:induction false} CompleteIsValid(w: World, s: Store, h: Hash)
    requires GoodArchive(w, s) && Vetted(w, s) && Complete(w, s.bodies.Keys, h, w(h).height)
    ensures ValidChain(Tip(w, h))
    decreases w(h).height
  {
    hide ValidChain, CoinRules, Replay;
    assert GoodRows(w, s, h) && Linked(w, s.records.Keys, h) && VettedAt(w, s, h);
    if !w(h).IsTx() {
      var p := w(h).prev;
      assert GoodRows(w, s, p) && Linked(w, s.records.Keys, p);
      CompleteIsValid(w, s, p);
      ReplayStep(Tip(w, p), w(h));
      assert Tip(w, h) == Tip(w, p) + [w(h)];
    }
  }
}
