/**
 Batches of queued header proofs: deduplication by an exact key, heaviest-first order, and the
 parallel drain; and the batch of header signatures with its failure attribution.
 */
module HeaderBatch {
  import opened Coins
  import opened Drain

  type Bytes = seq<Byte>

  datatype VdfInfo = VdfInfo(challenge: Bytes, iterations: nat, output: Bytes)
  datatype VdfProof = VdfProof(witnessType: Byte, segments: Bytes, normalizedToIdentity: bool)
  datatype QueuedVdf = QueuedVdf(input: Bytes, info: VdfInfo, proof: VdfProof, target: Option<VdfInfo>)

  predicate SizedInfo(i: VdfInfo) {
    |i.challenge| == 32 && |i.output| == 100 && i.iterations < 0x1_0000_0000_0000_0000
  }

  /** The field widths the types fix: 100-byte elements, 32-byte challenges, 64-bit iterations. */
  predicate Sized(q: QueuedVdf) {
    |q.input| == 100 && SizedInfo(q.info) && (q.target.Some? ==> SizedInfo(q.target.value))
  }

  /** Big-endian bytes of `n`, `width` of them. */
  function BigEndian(n: nat, width: nat): (b: Bytes)
    ensures |b| == width
  {
    if width == 0 then [] else BigEndian(n / 256, width - 1) + [n % 256]
  }

  function Pow256(width: nat): nat {
    if width == 0 then 1 else 256 * Pow256(width - 1)
  }

  lemma {:induction false} BigEndianInjective(m: nat, n: nat, width: nat)
    requires m < Pow256(width) && n < Pow256(width) && BigEndian(m, width) == BigEndian(n, width)
    ensures m == n
    decreases width
  {
    if width > 0 {
      var a, b := BigEndian(m, width), BigEndian(n, width);
      assert BigEndian(m / 256, width - 1) == a[..width - 1] && BigEndian(n / 256, width - 1) == b[..width - 1];
      assert a[width - 1] == m % 256 && b[width - 1] == n % 256;
      BigEndianInjective(m / 256, n / 256, width - 1);
    }
  }

  lemma SixtyFourBits()
    ensures Pow256(8) == 0x1_0000_0000_0000_0000
  {
    assert Pow256(4) == 0x1_0000_0000;
  }

  function InfoKey(i: VdfInfo): Bytes {
    i.challenge + i.output + BigEndian(i.iterations, 8)
  }

  function TargetKey(t: Option<VdfInfo>): Bytes {
    match t case None => [0] case Some(i) => [1] + InfoKey(i)
  }

  function Flags(p: VdfProof): Bytes {
    [p.witnessType, if p.normalizedToIdentity then 1 else 0]
  }

  /** Every field that decides a verification: fixed-size fields first, the witness as the tail. */
  function DedupKey(q: QueuedVdf): Bytes {
    q.input + (InfoKey(q.info) + (Flags(q.proof) + (TargetKey(q.target) + q.proof.segments)))
  }

  lemma SplitEqual(a: Bytes, b: Bytes, x: Bytes, y: Bytes)
    requires |a| == |b| && a + x == b + y
    ensures a == b && x == y
  {
    assert (a + x)[..|a|] == a && (b + y)[..|b|] == b;
    assert (a + x)[|a|..] == x && (b + y)[|b|..] == y;
  }

  lemma InfoKeyInjective(a: VdfInfo, b: VdfInfo)
    requires SizedInfo(a) && SizedInfo(b) && InfoKey(a) == InfoKey(b)
    ensures a == b
  {
    hide BigEndian;
    SplitEqual(a.challenge + a.output, b.challenge + b.output, BigEndian(a.iterations, 8), BigEndian(b.iterations, 8));
    SplitEqual(a.challenge, b.challenge, a.output, b.output);
    SixtyFourBits();
    BigEndianInjective(a.iterations, b.iterations, 8);
  }

  lemma TargetKeyInjective(a: Option<VdfInfo>, b: Option<VdfInfo>, x: Bytes, y: Bytes)
    requires a.Some? ==> SizedInfo(a.value)
    requires b.Some? ==> SizedInfo(b.value)
    requires TargetKey(a) + x == TargetKey(b) + y
    ensures a == b && x == y
  {
    hide InfoKey;
    assert (TargetKey(a) + x)[0] == TargetKey(a)[0] && (TargetKey(b) + y)[0] == TargetKey(b)[0];
    InfoKeyLength(a);
    InfoKeyLength(b);
    SplitEqual(TargetKey(a), TargetKey(b), x, y);
    if a.Some? {
      SplitEqual([1], [1], InfoKey(a.value), InfoKey(b.value));
      InfoKeyInjective(a.value, b.value);
    }
  }

  lemma InfoKeyLength(a: Option<VdfInfo>)
    requires a.Some? ==> SizedInfo(a.value)
    ensures a.Some? ==> |InfoKey(a.value)| == 140
  {
  }

  /** Two queued verifications share a key only when they are the same in every field. */
  lemma DedupKeyInjective(a: QueuedVdf, b: QueuedVdf)
    requires Sized(a) && Sized(b)
    ensures DedupKey(a) == DedupKey(b) <==> a == b
  {
    hide InfoKey, TargetKey, BigEndian;
    if DedupKey(a) == DedupKey(b) {
      InfoKeyLength(Some(a.info));
      InfoKeyLength(Some(b.info));
      var ta, tb := TargetKey(a.target) + a.proof.segments, TargetKey(b.target) + b.proof.segments;
      SplitEqual(a.input, b.input, InfoKey(a.info) + (Flags(a.proof) + ta), InfoKey(b.info) + (Flags(b.proof) + tb));
      SplitEqual(InfoKey(a.info), InfoKey(b.info), Flags(a.proof) + ta, Flags(b.proof) + tb);
      SplitEqual(Flags(a.proof), Flags(b.proof), ta, tb);
      InfoKeyInjective(a.info, b.info);
      TargetKeyInjective(a.target, b.target, a.proof.segments, b.proof.segments);
      assert Flags(a.proof)[0] == Flags(b.proof)[0] && Flags(a.proof)[1] == Flags(b.proof)[1];
    }
  }

  // ---- Deduplication and order ---------------------------------------------------------------------------

  /** Indices of the first occurrence of every proof among the first `k` queued. */
  function Firsts(queue: seq<QueuedVdf>, k: nat): (order: seq<nat>)
    requires k <= |queue|
    ensures forall i :: 0 <= i < |order| ==> order[i] < k
  {
    if k == 0 then []
    else if queue[k - 1] in queue[..k - 1] then Firsts(queue, k - 1)
    else Firsts(queue, k - 1) + [k - 1]
  }

  /** Every queued proof has an equal one that was kept. */
  lemma {:induction false} FirstsCover(queue: seq<QueuedVdf>, k: nat, j: nat) returns (i: nat)
    requires j < k <= |queue|
    ensures i < k && i in Firsts(queue, k) && queue[i] == queue[j]
    decreases k
  {
    if j < k - 1 {
      i := FirstsCover(queue, k - 1, j);
    } else if queue[j] in queue[..j] {
      var m :| 0 <= m < j && queue[..j][m] == queue[j];
      i := FirstsCover(queue, k - 1, m);
    } else {
      i := j;
    }
  }

  /** No proof is kept twice. */
  lemma {:induction false} FirstsDiffer(queue: seq<QueuedVdf>, k: nat, a: nat, b: nat)
    requires k <= |queue| && a < b < |Firsts(queue, k)|
    ensures queue[Firsts(queue, k)[a]] != queue[Firsts(queue, k)[b]]
    decreases k
  {
    if b < |Firsts(queue, k - 1)| {
      FirstsDiffer(queue, k - 1, a, b);
    } else {
      var i := Firsts(queue, k - 1)[a];
      assert queue[i] == queue[..k - 1][i];
    }
  }

  function Keys(queue: seq<QueuedVdf>, k: nat): set<Bytes>
    requires k <= |queue|
  {
    if k == 0 then {} else Keys(queue, k - 1) + {DedupKey(queue[k - 1])}
  }

  lemma {:induction false} KeysDecide(queue: seq<QueuedVdf>, k: nat, q: QueuedVdf)
    requires k <= |queue| && Sized(q) && forall i :: 0 <= i < |queue| ==> Sized(queue[i])
    ensures DedupKey(q) in Keys(queue, k) <==> q in queue[..k]
    decreases k
  {
    hide DedupKey, Sized;
    if k > 0 {
      KeysDecide(queue, k - 1, q);
      DedupKeyInjective(queue[k - 1], q);
      assert queue[..k] == queue[..k - 1] + [queue[k - 1]];
    }
  }

  /** Keep the first of each group of equal proofs. */
  method Dedup(queue: seq<QueuedVdf>) returns (order: seq<nat>)
    requires forall i :: 0 <= i < |queue| ==> Sized(queue[i])
    ensures order == Firsts(queue, |queue|)
  {
    hide DedupKey, Sized;
    var seen: set<Bytes> := {};
    order := [];
    for k := 0 to |queue|
      invariant order == Firsts(queue, k) && seen == Keys(queue, k)
    {
      KeysDecide(queue, k, queue[k]);
      var key := DedupKey(queue[k]);
      if key !in seen {
        order := order + [k];
      }
      seen := seen + {key};
    }
  }

  predicate InRange(queue: seq<QueuedVdf>, order: seq<nat>) {
    forall i :: 0 <= i < |order| ==> order[i] < |queue|
  }

  /** Heaviest first: by falling witness type. */
  predicate HeaviestFirst(queue: seq<QueuedVdf>, order: seq<nat>)
    requires InRange(queue, order)
  {
    forall i, j :: 0 <= i < j < |order| ==> queue[order[i]].proof.witnessType >= queue[order[j]].proof.witnessType
  }

  /** The indices of one witness type, in order. */
  function OfType(queue: seq<QueuedVdf>, order: seq<nat>, t: nat): seq<nat>
    requires InRange(queue, order)
  {
    if order == [] then []
    else
      var last := order[|order| - 1];
      OfType(queue, order[..|order| - 1], t) + if queue[last].proof.witnessType == t then [last] else []
  }

  lemma {:induction false} OfTypeConcat(queue: seq<QueuedVdf>, a: seq<nat>, b: seq<nat>, t: nat)
    requires InRange(queue, a) && InRange(queue, b)
    ensures InRange(queue, a + b) && OfType(queue, a + b, t) == OfType(queue, a, t) + OfType(queue, b, t)
    decreases |b|
  {
    if b == [] {
      assert a + b == a;
    } else {
      var m := |b| - 1;
      OfTypeConcat(queue, a, b[..m], t);
      assert (a + b)[..|a + b| - 1] == a + b[..m];
    }
  }

  lemma {:induction false} OfTypeNone(queue: seq<QueuedVdf>, order: seq<nat>, t: nat)
    requires InRange(queue, order) && forall j :: 0 <= j < |order| ==> queue[order[j]].proof.witnessType != t
    ensures OfType(queue, order, t) == []
    decreases |order|
  {
    if order != [] {
      OfTypeNone(queue, order[..|order| - 1], t);
    }
  }

  /** Placing an index before the lighter ones puts it last among its own type, and moves no other type. */
  lemma PlacedLast(queue: seq<QueuedVdf>, sorted: seq<nat>, i: nat, pos: nat, t: nat)
    requires InRange(queue, sorted) && i < |queue| && pos <= |sorted|
    requires forall j :: pos <= j < |sorted| ==> queue[sorted[j]].proof.witnessType < queue[i].proof.witnessType
    ensures InRange(queue, sorted[..pos] + [i] + sorted[pos..])
    ensures OfType(queue, sorted[..pos] + [i] + sorted[pos..], t) == OfType(queue, sorted + [i], t)
  {
    hide OfType;
    var a, b := sorted[..pos], sorted[pos..];
    assert sorted == a + b;
    OfTypeConcat(queue, a, b, t);
    OfTypeConcat(queue, sorted, [i], t);
    OfTypeConcat(queue, a, [i], t);
    OfTypeConcat(queue, a + [i], b, t);
    OfTypeOne(queue, i, t);
    if queue[i].proof.witnessType == t {
      OfTypeNone(queue, b, t);
    }
  }

  lemma OfTypeOne(queue: seq<QueuedVdf>, i: nat, t: nat)
    requires i < |queue|
    ensures InRange(queue, [i]) && OfType(queue, [i], t) == if queue[i].proof.witnessType == t then [i] else []
  {
    assert [i][..0] == [];
  }

  method PlaceByWitness(queue: seq<QueuedVdf>, sorted: seq<nat>, i: nat) returns (r: seq<nat>)
    requires InRange(queue, sorted) && HeaviestFirst(queue, sorted) && i < |queue|
    ensures multiset(r) == multiset(sorted) + multiset{i} && InRange(queue, r) && HeaviestFirst(queue, r)
    ensures forall t :: OfType(queue, r, t) == OfType(queue, sorted + [i], t)
  {
    hide HeaviestFirst, OfType;
    var pos := |sorted|;
    while pos > 0 && queue[sorted[pos - 1]].proof.witnessType < queue[i].proof.witnessType
      invariant 0 <= pos <= |sorted|
      invariant forall j :: pos <= j < |sorted| ==> queue[sorted[j]].proof.witnessType < queue[i].proof.witnessType
    {
      pos := pos - 1;
    }
    r := sorted[..pos] + [i] + sorted[pos..];
    PlacedHolds(sorted, i, pos);
    PlacedInOrder(queue, sorted, i, pos);
    PlacedLastOfEach(queue, sorted, i, pos);
  }

  lemma PlacedHolds(sorted: seq<nat>, i: nat, pos: nat)
    requires pos <= |sorted|
    ensures multiset(sorted[..pos] + [i] + sorted[pos..]) == multiset(sorted) + multiset{i}
  {
    assert sorted == sorted[..pos] + sorted[pos..];
  }

  lemma PlacedLastOfEach(queue: seq<QueuedVdf>, sorted: seq<nat>, i: nat, pos: nat)
    requires InRange(queue, sorted) && i < |queue| && pos <= |sorted|
    requires forall j :: pos <= j < |sorted| ==> queue[sorted[j]].proof.witnessType < queue[i].proof.witnessType
    ensures InRange(queue, sorted[..pos] + [i] + sorted[pos..])
    ensures forall t :: OfType(queue, sorted[..pos] + [i] + sorted[pos..], t) == OfType(queue, sorted + [i], t)
  {
    hide OfType;
    forall t
      ensures InRange(queue, sorted[..pos] + [i] + sorted[pos..])
      ensures OfType(queue, sorted[..pos] + [i] + sorted[pos..], t) == OfType(queue, sorted + [i], t)
    {
      PlacedLast(queue, sorted, i, pos, t);
    }
  }

  lemma PlacedInOrder(queue: seq<QueuedVdf>, sorted: seq<nat>, i: nat, pos: nat)
    requires InRange(queue, sorted) && HeaviestFirst(queue, sorted) && i < |queue| && pos <= |sorted|
    requires pos > 0 ==> queue[sorted[pos - 1]].proof.witnessType >= queue[i].proof.witnessType
    requires forall j :: pos <= j < |sorted| ==> queue[sorted[j]].proof.witnessType < queue[i].proof.witnessType
    ensures var r := sorted[..pos] + [i] + sorted[pos..]; InRange(queue, r) && HeaviestFirst(queue, r)
  {
    var r := sorted[..pos] + [i] + sorted[pos..];
    forall a | 0 <= a < |r|
      ensures r[a] == if a < pos then sorted[a] else if a == pos then i else sorted[a - 1]
    {
    }
    assert InRange(queue, r);
    forall a, b | 0 <= a < b < |r|
      ensures queue[r[a]].proof.witnessType >= queue[r[b]].proof.witnessType
    {
      if a < pos {
        assert a < pos - 1 ==> queue[sorted[a]].proof.witnessType >= queue[sorted[pos - 1]].proof.witnessType;
      }
    }
  }

  /** Sort by falling witness type; proofs of one type keep their order. */
  method SortByWitness(queue: seq<QueuedVdf>, order: seq<nat>) returns (sorted: seq<nat>)
    requires InRange(queue, order)
    ensures multiset(sorted) == multiset(order) && InRange(queue, sorted) && HeaviestFirst(queue, sorted)
    ensures forall t :: OfType(queue, sorted, t) == OfType(queue, order, t)
  {
    hide HeaviestFirst, OfType;
    SortStart(queue);
    sorted := [];
    for k := 0 to |order|
      invariant multiset(sorted) == multiset(order[..k]) && InRange(queue, sorted) && HeaviestFirst(queue, sorted)
      invariant forall t :: OfType(queue, sorted, t) == OfType(queue, order[..k], t)
    {
      assert order[..k + 1] == order[..k] + [order[k]];
      SameTypesGrow(queue, sorted, order[..k], order[k]);
      sorted := PlaceByWitness(queue, sorted, order[k]);
    }
    assert order[..|order|] == order;
  }

  lemma SortStart(queue: seq<QueuedVdf>)
    ensures HeaviestFirst(queue, [])
  {
  }

  lemma SameTypesGrow(queue: seq<QueuedVdf>, a: seq<nat>, b: seq<nat>, i: nat)
    requires InRange(queue, a) && InRange(queue, b) && i < |queue|
    requires forall t :: OfType(queue, a, t) == OfType(queue, b, t)
    ensures forall t :: OfType(queue, a + [i], t) == OfType(queue, b + [i], t)
  {
    forall t
      ensures OfType(queue, a + [i], t) == OfType(queue, b + [i], t)
    {
      OfTypeConcat(queue, a, [i], t);
      OfTypeConcat(queue, b, [i], t);
    }
  }

  // ---- The batches --------------------------------------------------------------------------------------------

  lemma SameElements(a: seq<nat>, b: seq<nat>, x: nat)
    requires multiset(a) == multiset(b) && x in a
    ensures x in b
  {
    assert x in multiset(b);
  }

  /** Checking the kept proofs, in any order, checks them all. */
  lemma KeptCoverAll(queue: seq<QueuedVdf>, sorted: seq<nat>, verify: QueuedVdf -> bool)
    requires multiset(sorted) == multiset(Firsts(queue, |queue|)) && InRange(queue, sorted)
    ensures (forall n :: 0 <= n < |sorted| ==> verify(queue[sorted[n]]))
            <==> (forall j :: 0 <= j < |queue| ==> verify(queue[j]))
  {
    if forall n :: 0 <= n < |sorted| ==> verify(queue[sorted[n]]) {
      forall j | 0 <= j < |queue|
        ensures verify(queue[j])
      {
        var i := FirstsCover(queue, |queue|, j);
        SameElements(Firsts(queue, |queue|), sorted, i);
        var n :| 0 <= n < |sorted| && sorted[n] == i;
        assert verify(queue[sorted[n]]);
      }
    }
  }

  /** Verify a queue of proofs on up to `cores` workers, whatever the scheduler does. */
  method VerifyVdfBatch(queue: seq<QueuedVdf>, verify: QueuedVdf -> bool, verifySerial: QueuedVdf -> bool,
                        cores: nat, scheduler: nat -> Choice) returns (ok: bool)
    requires cores > 0 && forall i :: 0 <= i < |queue| ==> Sized(queue[i])
    ensures |queue| == 1 ==> ok == verify(queue[0])
    ensures |queue| != 1 ==> (ok <==> forall i :: 0 <= i < |queue| ==> verifySerial(queue[i]))
  {
    if queue == [] {
      return true;
    }
    if |queue| == 1 {
      return verify(queue[0]);
    }
    var order := Dedup(queue);
    ghost var kept := order;
    order := SortByWitness(queue, order);
    var first := FirstsCover(queue, |queue|, 0);
    SameElements(kept, order, first);
    var workers := if cores < |order| then cores else |order|;
    var saturated := |order| >= workers;
    var run := if saturated then verifySerial else verify;
    var check: Check := (n: nat) => n < |order| && order[n] < |queue| && run(queue[order[n]]);
    ok := RunPool(|order|, check, workers, scheduler);
    assert forall n :: 0 <= n < |order| ==> check(n) == verifySerial(queue[order[n]]);
    KeptCoverAll(queue, order, verifySerial);
  }

  type Tag = nat

  datatype QueuedSig = QueuedSig(pk: Bytes, msg: Bytes, sig: Bytes, tag: Tag)

  /** The first signature that does not verify. */
  method FirstFailingSig(queue: seq<QueuedSig>, verify: QueuedSig -> bool) returns (tag: Option<Tag>)
    ensures tag.None? <==> forall i :: 0 <= i < |queue| ==> verify(queue[i])
    ensures tag.Some? ==> exists i :: 0 <= i < |queue| && !verify(queue[i]) && tag == Some(queue[i].tag)
                                      && forall j :: 0 <= j < i ==> verify(queue[j])
  {
    for k := 0 to |queue|
      invariant forall i :: 0 <= i < k ==> verify(queue[i])
    {
      if !verify(queue[k]) {
        return Some(queue[k].tag);
      }
    }
    return None;
  }

  /** Verify a queue of signatures on up to `cores` workers: true exactly when none fails. */
  method VerifySigBatch(queue: seq<QueuedSig>, verify: QueuedSig -> bool, cores: nat, scheduler: nat -> Choice)
    returns (ok: bool)
    requires cores > 0
    ensures ok <==> forall i :: 0 <= i < |queue| ==> verify(queue[i])
  {
    if queue == [] {
      return true;
    }
    if |queue| == 1 {
      return verify(queue[0]);
    }
    var workers := if cores < |queue| then cores else |queue|;
    var check: Check := (n: nat) => n < |queue| && verify(queue[n]);
    ok := RunPool(|queue|, check, workers, scheduler);
    assert forall n :: 0 <= n < |queue| ==> check(n) == verify(queue[n]);
  }
}
