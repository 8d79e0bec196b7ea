/**
 Bit slices of a byte string: shifts and masks on 64-bit words against the exact quotient and
 remainder of the zero-extended big-endian number.
 */
module BitSlice {
  import opened Arithmetic
  import opened Coins

  function Pow2(k: nat): (p: nat)
    ensures p > 0
  {
    if k == 0 then 1 else 2 * Pow2(k - 1)
  }

  function Quotient(x: nat, p: nat): nat
    requires p > 0
  {
    x / p
  }

  function Remainder(x: nat, p: nat): nat
    requires p > 0
  {
    x % p
  }

  function ByteAt(bytes: seq<Byte>, i: nat): Byte {
    if i < |bytes| then bytes[i] else 0
  }

  /** The first `n` bytes, zero-extended past the end, as a big-endian number. */
  function Number(bytes: seq<Byte>, n: nat): nat {
    if n == 0 then 0 else 256 * Number(bytes, n - 1) + ByteAt(bytes, n - 1)
  }

  /** The `bits` bits of `x` above its lowest `shift`. */
  function Bits(x: nat, shift: nat, bits: nat): nat {
    Remainder(Quotient(x, Pow2(shift)), Pow2(bits))
  }

  /** The `bits` bits of the string from bit `start` on, as a number. */
  function Slice(bytes: seq<Byte>, start: nat, bits: nat): nat {
    var n := (start + bits) / 8 + 1;
    Bits(Number(bytes, n), 8 * n - start - bits, bits)
  }

  // ---- Quotients and remainders --------------------------------------------------------------------------

  lemma {:induction false} Pow2Add(a: nat, b: nat)
    ensures Pow2(a + b) == Pow2(a) * Pow2(b)
    decreases a
  {
    if a > 0 {
      Pow2Add(a - 1, b);
      assert Pow2(a + b) == 2 * Pow2(a - 1 + b) && Pow2(a) == 2 * Pow2(a - 1);
      hide Pow2;
      Doubled(Pow2(b), Pow2(a - 1));
      assert Pow2(a - 1) * Pow2(b) == Pow2(b) * Pow2(a - 1) && Pow2(a) * Pow2(b) == Pow2(b) * Pow2(a);
    }
  }

  lemma Eight()
    ensures Pow2(8) == 256
  {
    assert Pow2(4) == 16;
  }

  lemma Parts(x: nat, p: nat)
    requires p > 0
    ensures x == Quotient(x, p) * p + Remainder(x, p) && Remainder(x, p) < p
  {
  }

  lemma DivUnique(x: nat, p: nat, q: nat, r: nat)
    requires p > 0 && x == q * p + r && r < p
    ensures Quotient(x, p) == q && Remainder(x, p) == r
  {
    hide Quotient, Remainder;
    Parts(x, p);
    var q' := Quotient(x, p);
    if q' < q {
      MulGrows(q' + 1, q, p);
    } else if q < q' {
      MulGrows(q + 1, q', p);
    }
  }

  /** A number below a product splits at the factor. */
  lemma Splits(q: nat, r: nat, a: nat, b: nat)
    requires r < b && q < a
    ensures q * b + r < a * b
  {
    MulGrows(q + 1, a, b);
    assert (q + 1) * b == q * b + b;
  }

  lemma Distribute(q: nat, a: nat, r: nat, p: nat)
    ensures (q * a + r) * p == q * (a * p) + r * p
  {
    assert q * a * p == q * (a * p);
  }

  /** Dividing twice is dividing by the product. */
  lemma DivTwice(x: nat, a: nat, b: nat)
    requires a > 0 && b > 0
    ensures a * b > 0 && Quotient(Quotient(x, a), b) == Quotient(x, a * b)
  {
    hide Quotient, Remainder;
    Parts(x, a);
    var y := Quotient(x, a);
    Parts(y, b);
    var q, r := Quotient(y, b), Remainder(y, b);
    Splits(r, Remainder(x, a), b, a);
    Distribute(q, b, r, a);
    assert b * a == a * b;
    DivUnique(x, a * b, q, r * a + Remainder(x, a));
  }

  /** A remainder by a product is the two remainders put together. */
  lemma ModSplit(y: nat, a: nat, b: nat)
    requires a > 0 && b > 0
    ensures a * b > 0 && Remainder(y, a * b) == b * Remainder(Quotient(y, b), a) + Remainder(y, b)
  {
    hide Quotient, Remainder;
    Parts(y, b);
    var z := Quotient(y, b);
    Parts(z, a);
    var q, r := Quotient(z, a), Remainder(z, a);
    Splits(r, Remainder(y, b), a, b);
    Distribute(q, a, r, b);
    DivUnique(y, a * b, q, r * b + Remainder(y, b));
  }

  lemma Regroup(high: nat, p: nat, m: nat, y: nat)
    ensures high * (p * m) + y * p == (high * m + y) * p
  {
    assert high * (p * m) == high * m * p;
  }

  lemma DivHigh(high: nat, v: nat, p: nat, m: nat)
    requires p > 0
    ensures Quotient(high * (p * m) + v, p) == high * m + Quotient(v, p)
  {
    hide Quotient, Remainder;
    Parts(v, p);
    Regroup(high, p, m, Quotient(v, p));
    DivUnique(high * (p * m) + v, p, high * m + Quotient(v, p), Remainder(v, p));
  }

  lemma ModHigh(high: nat, y: nat, a: nat, q: nat)
    requires q > 0
    ensures Remainder(high * (a * q) + y, q) == Remainder(y, q)
  {
    hide Quotient, Remainder;
    Parts(y, q);
    Regroup(high, q, a, Quotient(y, q));
    assert a * q == q * a;
    DivUnique(high * (a * q) + y, q, high * a + Quotient(y, q), Remainder(y, q));
  }

  lemma ModScale(v: nat, a: nat, p: nat)
    requires a > 0 && p > 0
    ensures a * p > 0 && Remainder(v * p, a * p) == Remainder(v, a) * p
  {
    hide Quotient, Remainder;
    Parts(v, a);
    Splits(Remainder(v, a), 0, a, p);
    Distribute(Quotient(v, a), a, Remainder(v, a), p);
    DivUnique(v * p, a * p, Quotient(v, a), Remainder(v, a) * p);
  }

  lemma Exactly(v: nat, p: nat)
    requires p > 0
    ensures Quotient(v * p, p) == v
  {
    DivUnique(v * p, p, v, 0);
  }

  lemma QuotientBound(c: nat, a: nat, b: nat)
    requires b > 0 && c < a * b
    ensures a > 0 && Quotient(c, b) < a && Remainder(Quotient(c, b), a) == Quotient(c, b)
  {
    hide Quotient, Remainder;
    Parts(c, b);
    if Quotient(c, b) >= a {
      MulGrows(a, Quotient(c, b), b);
    } else {
      DivUnique(Quotient(c, b), a, 0, Quotient(c, b));
    }
  }

  // ---- The slice does not depend on how far the number is extended ------------------------------------------

  lemma ExtendOnce(bytes: seq<Byte>, n: nat, e: nat)
    ensures Quotient(Number(bytes, n + 1), Pow2(8 + e)) == Quotient(Number(bytes, n), Pow2(e))
  {
    Eight();
    Pow2Add(8, e);
    hide Pow2, Quotient;
    DivUnique(Number(bytes, n + 1), 256, Number(bytes, n), ByteAt(bytes, n));
    DivTwice(Number(bytes, n + 1), 256, Pow2(e));
  }

  lemma {:induction false} Extend(bytes: seq<Byte>, n: nat, more: nat, e: nat)
    ensures Quotient(Number(bytes, n + more), Pow2(8 * more + e)) == Quotient(Number(bytes, n), Pow2(e))
    decreases more
  {
    hide Pow2, Quotient, Number;
    if more > 0 {
      Extend(bytes, n, more - 1, e);
      ExtendOnce(bytes, n + more - 1, 8 * (more - 1) + e);
      assert n + more - 1 + 1 == n + more && 8 + (8 * (more - 1) + e) == 8 * more + e;
    }
  }

  /** Any extension past the slice gives the same bits. */
  lemma SliceAt(bytes: seq<Byte>, start: nat, bits: nat, n: nat)
    requires 8 * n >= start + bits
    ensures Slice(bytes, start, bits) == Bits(Number(bytes, n), 8 * n - start - bits, bits)
  {
    hide Number, Pow2, Quotient, Remainder;
    var m := (start + bits) / 8 + 1;
    if m <= n {
      Extend(bytes, m, n - m, 8 * m - start - bits);
      assert 8 * (n - m) + (8 * m - start - bits) == 8 * n - start - bits;
    } else {
      Extend(bytes, n, m - n, 8 * n - start - bits);
      assert 8 * (m - n) + (8 * n - start - bits) == 8 * m - start - bits;
    }
  }

  /** The bits above `shift` split into high and low bits. */
  lemma BitsSplit(x: nat, shift: nat, high: nat, low: nat)
    ensures Bits(x, shift, high + low) == Pow2(low) * Bits(x, shift + low, high) + Bits(x, shift, low)
  {
    Pow2Add(high, low);
    Pow2Add(shift, low);
    hide Pow2, Quotient, Remainder;
    DivTwice(x, Pow2(shift), Pow2(low));
    ModSplit(Quotient(x, Pow2(shift)), Pow2(high), Pow2(low));
  }

  /** A slice is its high bits followed by its low bits. */
  lemma SliceSplits(bytes: seq<Byte>, start: nat, high: nat, low: nat)
    ensures Slice(bytes, start, high + low) == Pow2(low) * Slice(bytes, start, high) + Slice(bytes, start + high, low)
  {
    hide Number, Pow2, Slice, Bits;
    var n := start + high + low;
    var e := 8 * n - start - high - low;
    SliceAt(bytes, start, high + low, n);
    SliceAt(bytes, start, high, n);
    SliceAt(bytes, start + high, low, n);
    BitsSplit(Number(bytes, n), e, high, low);
    assert 8 * n - start - high == e + low && 8 * n - (start + high) - low == e;
  }

  // ---- A 64-bit word of the string ------------------------------------------------------------------------------

  function From(bytes: seq<Byte>, offset: nat): seq<Byte> {
    bytes[if offset < |bytes| then offset else |bytes|..]
  }

  lemma {:induction false} NumberBound(bytes: seq<Byte>, n: nat)
    ensures Number(bytes, n) < Pow2(8 * n)
    decreases n
  {
    if n > 0 {
      NumberBound(bytes, n - 1);
      Eight();
      Pow2Add(8, 8 * (n - 1));
      hide Pow2;
      Splits(Number(bytes, n - 1), ByteAt(bytes, n - 1), Pow2(8 * (n - 1)), 256);
    }
  }

  lemma ScaleUp(h: nat, p: nat, v: nat)
    ensures 256 * (h * p + v) == h * (256 * p) + 256 * v
  {
  }

  lemma {:induction false} NumberSplits(bytes: seq<Byte>, offset: nat, n: nat)
    ensures Number(bytes, offset + n) == Number(bytes, offset) * Pow2(8 * n) + Number(From(bytes, offset), n)
    decreases n
  {
    if n > 0 {
      NumberSplits(bytes, offset, n - 1);
      Eight();
      Pow2Add(8, 8 * (n - 1));
      assert ByteAt(From(bytes, offset), n - 1) == ByteAt(bytes, offset + n - 1);
      hide Pow2, From;
      ScaleUp(Number(bytes, offset), Pow2(8 * (n - 1)), Number(From(bytes, offset), n - 1));
    }
  }

  /** Bits above the window do not matter. */
  lemma HighDrops(high: nat, v: nat, shift: nat, m: nat, bits: nat)
    requires bits <= m
    ensures Bits(high * Pow2(shift + m) + v, shift, bits) == Bits(v, shift, bits)
  {
    Pow2Add(shift, m);
    Pow2Add(m - bits, bits);
    hide Pow2, Quotient, Remainder;
    DivHigh(high, v, Pow2(shift), Pow2(m));
    ModHigh(high, Quotient(v, Pow2(shift)), Pow2(m - bits), Pow2(bits));
  }

  /** A slice inside eight bytes is a slice of their word. */
  lemma SliceOfWord(bytes: seq<Byte>, offset: nat, s: nat, bits: nat)
    requires s + bits <= 64
    ensures Slice(bytes, 8 * offset + s, bits) == Bits(Number(From(bytes, offset), 8), 64 - s - bits, bits)
  {
    hide Number, Pow2, Slice, From, Bits;
    SliceAt(bytes, 8 * offset + s, bits, offset + 8);
    NumberSplits(bytes, offset, 8);
    HighDrops(Number(bytes, offset), Number(From(bytes, offset), 8), 64 - s - bits, s + bits, bits);
  }

  function Shl64(x: nat, s: nat): nat {
    Remainder(x * Pow2(s), Pow2(64))
  }

  function Shr(x: nat, s: nat): nat {
    Quotient(x, Pow2(s))
  }

  /** A left shift drops the high bits. */
  lemma ShiftedOut(v: nat, s: nat)
    requires s <= 64
    ensures Shl64(v, s) == Remainder(v, Pow2(64 - s)) * Pow2(s)
  {
    Pow2Add(64 - s, s);
    hide Pow2, Remainder;
    ModScale(v, Pow2(64 - s), Pow2(s));
  }

  /** The low bits of a number, cut again. */
  lemma LowBits(v: nat, bits: nat, f: nat)
    ensures Quotient(Remainder(v, Pow2(bits + f)), Pow2(f)) == Bits(v, f, bits)
  {
    Pow2Add(bits, f);
    hide Pow2, Quotient, Remainder;
    ModSplit(v, Pow2(bits), Pow2(f));
    Parts(v, Pow2(f));
    assert Pow2(f) * Bits(v, f, bits) == Bits(v, f, bits) * Pow2(f);
    DivUnique(Remainder(v, Pow2(bits + f)), Pow2(f), Bits(v, f, bits), Remainder(v, Pow2(f)));
  }

  /** Shifting left by `s` and right to the end leaves the bits after the first `s`. */
  lemma ShiftsSlice(v: nat, s: nat, bits: nat)
    requires 0 < bits && s + bits <= 64
    ensures Shr(Shl64(v, s), 64 - bits) == Bits(v, 64 - s - bits, bits)
  {
    hide Pow2, Quotient, Remainder, Bits;
    ShiftedOut(v, s);
    var f := 64 - s - bits;
    var low := Remainder(v, Pow2(bits + f));
    Pow2Add(s, f);
    DivTwice(low * Pow2(s), Pow2(s), Pow2(f));
    Exactly(low, Pow2(s));
    LowBits(v, bits, f);
  }

  /** When the bits run past the word by `t`, what is left are the word's bits, shifted up by `t`. */
  lemma ShiftsPast(v: nat, s: nat, bits: nat)
    requires 0 < bits <= 64 && s <= 64 <= s + bits
    ensures Shr(Shl64(v, s), 64 - bits) == Remainder(v, Pow2(64 - s)) * Pow2(s + bits - 64)
  {
    hide Pow2, Quotient, Remainder;
    ShiftedOut(v, s);
    var low, t := Remainder(v, Pow2(64 - s)), s + bits - 64;
    Pow2Add(t, 64 - bits);
    assert low * (Pow2(t) * Pow2(64 - bits)) == low * Pow2(t) * Pow2(64 - bits);
    Exactly(low * Pow2(t), Pow2(64 - bits));
  }

  // ---- Or of disjoint bits -----------------------------------------------------------------------------------------

  function BitOr(a: nat, b: nat): nat
    decreases a + b
  {
    if a == 0 && b == 0 then 0
    else 2 * BitOr(a / 2, b / 2) + if a % 2 == 1 || b % 2 == 1 then 1 else 0
  }

  lemma {:induction false} OrZero(a: nat)
    ensures BitOr(a, 0) == a
    decreases a
  {
    if a > 0 {
      OrZero(a / 2);
    }
  }

  lemma {:induction false} OrIsSum(a: nat, k: nat, b: nat)
    requires b < Pow2(k)
    ensures BitOr(a * Pow2(k), b) == a * Pow2(k) + b
    decreases k
  {
    if k == 0 {
      OrZero(a);
    } else {
      OrIsSum(a, k - 1, b / 2);
      Doubled(a, Pow2(k - 1));
      OrStep(a * Pow2(k - 1), b);
    }
  }

  lemma Doubled(a: nat, p: nat)
    ensures a * (2 * p) == 2 * (a * p)
  {
  }

  lemma OrStep(half: nat, b: nat)
    ensures BitOr(2 * half, b) == 2 * BitOr(half, b / 2) + b % 2
  {
    assert (2 * half) / 2 == half && (2 * half) % 2 == 0;
  }

  // ---- The slicing functions -----------------------------------------------------------------------------------------

  /** The first eight bytes as a big-endian word, padded with zeros. */
  method BytesToU64(bytes: seq<Byte>) returns (v: nat)
    ensures v == Number(bytes, 8)
  {
    var buf: seq<Byte>;
    if |bytes| < 8 {
      buf := bytes + seq(8 - |bytes|, _ => 0);
    } else {
      buf := bytes[0..8];
    }
    assert forall k :: 0 <= k < 8 ==> buf[k] == ByteAt(bytes, k);
    v := 0;
    for k := 0 to 8
      invariant v == Number(bytes, k)
    {
      v := 256 * v + buf[k];
    }
  }

  /** Where in its word a slice starts. */
  function InWord(start: nat, bits: nat): nat {
    if start + bits > 64 then start % 8 else start
  }

  /** The part of a slice that one word holds. */
  method SliceU64FromBytes(bytes: seq<Byte>, start: nat, bits: nat) returns (v: nat)
    requires 1 <= bits <= 64
    ensures var over := InWord(start, bits) + bits - 64;
            v == if over <= 0 then Slice(bytes, start, bits) else Slice(bytes, start, bits - over) * Pow2(over)
  {
    hide Pow2, Number, Slice, Shl64, Shr;
    var startBit, offset := start, 0;
    if startBit + bits > 64 {
      offset := startBit / 8;
      startBit := startBit % 8;
    }
    v := BytesToU64(bytes[if offset < |bytes| then offset else |bytes|..]);
    SliceOfWordShifted(bytes, offset, startBit, bits);
    v := Shl64(v, startBit);
    v := Shr(v, 64 - bits);
  }

  lemma SliceOfWordShifted(bytes: seq<Byte>, offset: nat, s: nat, bits: nat)
    requires 1 <= bits <= 64 && s < 64
    ensures var v := Shr(Shl64(Number(From(bytes, offset), 8), s), 64 - bits);
            var over := s + bits - 64;
            v == if over <= 0 then Slice(bytes, 8 * offset + s, bits)
                 else Slice(bytes, 8 * offset + s, bits - over) * Pow2(over)
  {
    hide Pow2, Number, Slice, Shl64, Shr, From, Bits;
    var word := Number(From(bytes, offset), 8);
    if s + bits <= 64 {
      SliceOfWord(bytes, offset, s, bits);
      ShiftsSlice(word, s, bits);
    } else {
      SliceOfWord(bytes, offset, s, 64 - s);
      ShiftsPast(word, s, bits);
      AllBits(word, 64 - s);
    }
  }

  lemma AllBits(x: nat, bits: nat)
    ensures Bits(x, 0, bits) == Remainder(x, Pow2(bits))
  {
  }

  /** The bits that run over into the ninth byte. */
  lemma Overrun(bytes: seq<Byte>, offset: nat, over: nat)
    requires 1 <= over < 8
    ensures Slice(bytes, 8 * offset, over) == Shr(ByteAt(bytes, offset), 8 - over)
    ensures Slice(bytes, 8 * offset, over) < Pow2(over)
  {
    hide Slice, Pow2, Quotient, Remainder, Number, Bits;
    SliceAt(bytes, 8 * offset, over, offset + 1);
    Eight();
    var c := ByteAt(bytes, offset);
    LastByte(bytes, offset);
    HighDrops(Number(bytes, offset), c, 8 - over, over, over);
    ByteBits(c, over);
  }

  lemma LastByte(bytes: seq<Byte>, n: nat)
    ensures Number(bytes, n + 1) == Number(bytes, n) * 256 + ByteAt(bytes, n)
  {
  }

  lemma ByteBits(c: Byte, over: nat)
    requires over < 8
    ensures Bits(c, 8 - over, over) == Shr(c, 8 - over) && Bits(c, 8 - over, over) < Pow2(over)
  {
    hide Pow2, Quotient, Remainder;
    Eight();
    Pow2Add(over, 8 - over);
    QuotientBound(c, Pow2(over), Pow2(8 - over));
  }

  /** A slice of up to 64 bits, reading a ninth byte when the bits run over. */
  method SliceU64FromBytesFull(bytes: seq<Byte>, start: nat, bits: nat) returns (v: nat)
    requires 1 <= bits <= 64
    ensures v == Slice(bytes, start, bits)
  {
    hide Pow2, Number, Slice, Shr, BitOr;
    var lastBit := start + bits;
    v := SliceU64FromBytes(bytes, start, bits);
    if start % 8 + bits > 64 {
      JoinOverrun(bytes, start, bits);
      var index := lastBit / 8;
      if index < |bytes| {
        v := BitOr(v, Shr(bytes[index], 8 - lastBit % 8));
      }
    }
  }

  /** The word's part and the ninth byte's part make the slice. */
  lemma JoinOverrun(bytes: seq<Byte>, start: nat, bits: nat)
    requires 1 <= bits <= 64 < start % 8 + bits
    ensures var over := start % 8 + bits - 64;
            var index := (start + bits) / 8;
            && over == (start + bits) % 8
            && Slice(bytes, start, bits) ==
               BitOr(Slice(bytes, start, bits - over) * Pow2(over), Shr(ByteAt(bytes, index), 8 - over))
            && (index >= |bytes| ==> Slice(bytes, start, bits) == Slice(bytes, start, bits - over) * Pow2(over))
  {
    hide Pow2, Number, Slice, Shr, BitOr;
    var over, index := (start + bits) % 8, (start + bits) / 8;
    assert over == start % 8 + bits - 64 && start + (bits - over) == 8 * index;
    Overrun(bytes, index, over);
    SliceSplits(bytes, start, bits - over, over);
    var high := Slice(bytes, start, bits - over);
    assert Pow2(over) * high == high * Pow2(over);
    OrIsSum(high, over, Shr(ByteAt(bytes, index), 8 - over));
    ShrZero(8 - over);
  }

  lemma ShrZero(s: nat)
    ensures Shr(0, s) == 0
  {
    DivUnique(0, Pow2(s), 0, 0);
  }

  /** A slice of up to 128 bits. */
  method SliceU128FromBytes(bytes: seq<Byte>, start: nat, bits: nat) returns (v: nat)
    requires 1 <= bits <= 128
    ensures v == Slice(bytes, start, bits)
  {
    hide Pow2, Number, Slice, BitOr;
    if bits <= 64 {
      v := SliceU64FromBytesFull(bytes, start, bits);
    } else {
      var bitsHigh := bits - 64;
      var high := SliceU64FromBytesFull(bytes, start, bitsHigh);
      var low := SliceU64FromBytesFull(bytes, start + bitsHigh, 64);
      SliceSplits(bytes, start, bitsHigh, 64);
      SliceBound(bytes, start + bitsHigh, 64);
      OrIsSum(high, 64, low);
      assert Pow2(64) * high == high * Pow2(64);
      v := BitOr(high * Pow2(64), low);
    }
  }

  lemma SliceBound(bytes: seq<Byte>, start: nat, bits: nat)
    ensures Slice(bytes, start, bits) < Pow2(bits)
  {
    hide Pow2, Number, Quotient, Remainder;
    var n := (start + bits) / 8 + 1;
    Parts(Quotient(Number(bytes, n), Pow2(8 * n - start - bits)), Pow2(bits));
  }
}
