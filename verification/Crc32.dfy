// components/bluepad32_component/uni_utils.c: the bitwise CRC-32, least significant bit first.

/** Folding a step over a sequence, and what the fold inherits from the step. */
module Folds {
  function Fold<W, B>(step: (W, B) -> W, c: W, s: seq<B>): W
    decreases s
  {
    if s == [] then c else Fold(step, step(c, s[0]), s[1..])
  }

  function Iterate<W>(step: W -> W, c: W, n: nat): W
    decreases n
  {
    if n == 0 then c else Iterate(step, step(c), n - 1)
  }

  lemma {:induction false} IterateStep<W>(step: W -> W, c: W, n: nat)
    requires n > 0
    ensures Iterate(step, c, n) == Iterate(step, step(c), n - 1)
  {
  }

  lemma {:induction false} FoldConcat<W, B>(step: (W, B) -> W, c: W, s: seq<B>, t: seq<B>)
    ensures Fold(step, c, s + t) == Fold(step, Fold(step, c, s), t)
    decreases s
  {
    if s == [] {
      assert s + t == t;
    } else {
      assert (s + t)[1..] == s[1..] + t;
      FoldConcat(step, step(c, s[0]), s[1..], t);
    }
  }

  ghost predicate Injective<W(!new)>(step: W -> W) {
    forall x, y :: step(x) == step(y) ==> x == y
  }

  ghost predicate InjectiveInState<W(!new), B(!new)>(step: (W, B) -> W) {
    forall x, y, b :: step(x, b) == step(y, b) ==> x == y
  }

  lemma {:induction false} IterateInjective<W(!new)>(step: W -> W, x: W, y: W, n: nat)
    requires Injective(step) && Iterate(step, x, n) == Iterate(step, y, n)
    ensures x == y
    decreases n
  {
    if n > 0 {
      IterateInjective(step, step(x), step(y), n - 1);
    }
  }

  lemma {:induction false} FoldInjective<W(!new), B(!new)>(step: (W, B) -> W, x: W, y: W, s: seq<B>)
    requires InjectiveInState(step) && Fold(step, x, s) == Fold(step, y, s)
    ensures x == y
    decreases s
  {
    if s != [] {
      FoldInjective(step, step(x, s[0]), step(y, s[0]), s[1..]);
    }
  }

  function Zip<B>(mix: (B, B) -> B, s: seq<B>, t: seq<B>): (r: seq<B>)
    requires |s| == |t|
    ensures |r| == |s|
  {
    seq(|s|, i requires 0 <= i < |s| => mix(s[i], t[i]))
  }

  /** A fold of linear shifts is linear. */
  lemma {:induction false} FoldLinear<W(!new), B(!new)>(
      step: (W, B) -> W, shift: W -> W, add: (W, W) -> W, bit: B -> W, mix: (B, B) -> B,
      x: W, y: W, s: seq<B>, t: seq<B>)
    requires |s| == |t|
    requires forall v, b :: step(v, b) == shift(add(v, bit(b)))
    requires forall v, w :: shift(add(v, w)) == add(shift(v), shift(w))
    requires forall a, b :: bit(mix(a, b)) == add(bit(a), bit(b))
    requires forall v, w, a, b :: add(add(v, w), add(a, b)) == add(add(v, a), add(w, b))
    ensures Fold(step, add(x, y), Zip(mix, s, t)) == add(Fold(step, x, s), Fold(step, y, t))
    decreases s
  {
    if s != [] {
      assert Zip(mix, s, t)[1..] == Zip(mix, s[1..], t[1..]);
      assert step(add(x, y), mix(s[0], t[0])) == add(step(x, s[0]), step(y, t[0]));
      FoldLinear(step, shift, add, bit, mix, step(x, s[0]), step(y, t[0]), s[1..], t[1..]);
    }
  }

  /** A step that mixes its input in reversibly and then shifts reversibly loses nothing. */
  lemma StepInjective<W(!new), B(!new)>(
      step: (W, B) -> W, shift: W -> W, unshift: W -> W, add: (W, W) -> W, bit: B -> W)
    requires forall v, b :: step(v, b) == shift(add(v, bit(b)))
    requires forall v :: unshift(shift(v)) == v
    requires forall v, w, b :: add(v, b) == add(w, b) ==> v == w
    ensures InjectiveInState(step) && Injective(shift)
  {
    forall x, y | shift(x) == shift(y) ensures x == y {
      assert unshift(shift(x)) == unshift(shift(y));
    }
    forall x, y, b | step(x, b) == step(y, b) ensures x == y {
      assert shift(add(x, bit(b))) == shift(add(y, bit(b)));
      assert unshift(shift(add(x, bit(b)))) == unshift(shift(add(y, bit(b))));
    }
  }

  /** Blocks of k elements, one per input element. */
  function Flatten<B, T>(encode: B -> seq<T>, m: seq<B>): seq<T> {
    if m == [] then [] else encode(m[0]) + Flatten(encode, m[1..])
  }

  ghost predicate Blocks<B(!new), T>(encode: B -> seq<T>, k: nat) {
    forall b :: |encode(b)| == k
  }

  lemma {:induction false} FlattenLength<B(!new), T>(encode: B -> seq<T>, k: nat, m: seq<B>)
    requires Blocks(encode, k)
    ensures |Flatten(encode, m)| == k * |m|
  {
    if m != [] {
      FlattenLength(encode, k, m[1..]);
      assert k * |m| == k + k * |m[1..]|;
    }
  }

  lemma {:induction false} FlattenConcat<B, T>(encode: B -> seq<T>, m: seq<B>, n: seq<B>)
    ensures Flatten(encode, m + n) == Flatten(encode, m) + Flatten(encode, n)
  {
    if m == [] {
      assert m + n == n;
    } else {
      assert (m + n)[1..] == m[1..] + n;
      FlattenConcat(encode, m[1..], n);
    }
  }

  lemma {:induction false} FlattenAppend<B, T>(encode: B -> seq<T>, m: seq<B>, b: B)
    ensures Flatten(encode, m + [b]) == Flatten(encode, m) + encode(b)
  {
    FlattenConcat(encode, m, [b]);
    assert [b][1..] == [];
    assert Flatten(encode, [b]) == encode(b) + [] == encode(b);
  }

  lemma {:induction false} FlattenInjective<B(!new), T>(encode: B -> seq<T>, k: nat, m: seq<B>, n: seq<B>)
    requires Blocks(encode, k)
    requires forall a, b :: encode(a) == encode(b) ==> a == b
    requires |m| == |n| && Flatten(encode, m) == Flatten(encode, n)
    ensures m == n
  {
    if m != [] {
      var f, g := Flatten(encode, m), Flatten(encode, n);
      assert encode(m[0]) == f[..k] == g[..k] == encode(n[0]);
      assert Flatten(encode, m[1..]) == f[k..] == g[k..] == Flatten(encode, n[1..]);
      FlattenInjective(encode, k, m[1..], n[1..]);
      assert m == [m[0]] + m[1..] && n == [n[0]] + n[1..];
    }
  }

  /** The two sequences have one length and agree at every index outside [lo, hi). */
  ghost predicate AgreeOutside<T>(s: seq<T>, t: seq<T>, lo: nat, hi: nat) {
    |s| == |t| && forall i :: 0 <= i < |s| && !(lo <= i < hi) ==> s[i] == t[i]
  }

  lemma {:induction false} FlattenAgree<B, T>(encode: B -> seq<T>, m: seq<B>, n: seq<B>, lo: nat, hi: nat)
    requires lo <= hi <= |m| && AgreeOutside(m, n, lo, hi)
    requires |Flatten(encode, m[lo..hi])| == |Flatten(encode, n[lo..hi])|
    ensures var before, inside := |Flatten(encode, m[..lo])|, |Flatten(encode, m[lo..hi])|;
            AgreeOutside(Flatten(encode, m), Flatten(encode, n), before, before + inside)
  {
    FlattenSplit(encode, m, lo, hi);
    FlattenSplit(encode, n, lo, hi);
    assert m[..lo] == n[..lo] && m[hi..] == n[hi..];
    MiddleDiffers(Flatten(encode, m[..lo]), Flatten(encode, m[lo..hi]),
                  Flatten(encode, n[lo..hi]), Flatten(encode, m[hi..]));
  }

  lemma {:induction false} FlattenSplit<B, T>(encode: B -> seq<T>, m: seq<B>, lo: nat, hi: nat)
    requires lo <= hi <= |m|
    ensures Flatten(encode, m)
         == Flatten(encode, m[..lo]) + (Flatten(encode, m[lo..hi]) + Flatten(encode, m[hi..]))
  {
    FlattenThree(encode, m[..lo], m[lo..hi], m[hi..]);
    assert m == m[..lo] + (m[lo..hi] + m[hi..]);
  }

  lemma {:induction false} FlattenThree<B, T>(encode: B -> seq<T>, a: seq<B>, b: seq<B>, c: seq<B>)
    ensures Flatten(encode, a + (b + c)) == Flatten(encode, a) + (Flatten(encode, b) + Flatten(encode, c))
  {
    FlattenConcat(encode, a, b + c);
    FlattenConcat(encode, b, c);
  }

  lemma MiddleDiffers<T>(a: seq<T>, b: seq<T>, c: seq<T>, d: seq<T>)
    requires |b| == |c|
    ensures AgreeOutside(a + (b + d), a + (c + d), |a|, |a| + |b|)
  {
  }

  lemma {:induction false} FoldSplit<W, B>(step: (W, B) -> W, c: W, s: seq<B>, lo: nat, hi: nat)
    requires lo <= hi <= |s|
    ensures Fold(step, c, s) == Fold(step, Fold(step, Fold(step, c, s[..lo]), s[lo..hi]), s[hi..])
  {
    assert s == s[..lo] + s[lo..] && s[lo..] == s[lo..hi] + s[hi..];
    FoldConcat(step, c, s[..lo], s[lo..]);
    FoldConcat(step, Fold(step, c, s[..lo]), s[lo..hi], s[hi..]);
  }

  ghost predicate ToldApart<W(!new), B>(step: (W, B) -> W, s: seq<B>, t: seq<B>) {
    forall d :: Fold(step, d, s) == Fold(step, d, t) ==> s == t
  }

  /** If the window alone is told apart from any state, the whole message is. */
  lemma {:induction false} WindowDecides<W(!new), B(!new)>(
      step: (W, B) -> W, c: W, s: seq<B>, t: seq<B>, lo: nat, hi: nat)
    requires InjectiveInState(step) && lo <= hi <= |s| && AgreeOutside(s, t, lo, hi)
    requires ToldApart(step, s[lo..hi], t[lo..hi])
    requires Fold(step, c, s) == Fold(step, c, t)
    ensures s == t
  {
    FoldSplit(step, c, s, lo, hi);
    FoldSplit(step, c, t, lo, hi);
    assert s[..lo] == t[..lo] && s[hi..] == t[hi..];
    var d := Fold(step, c, s[..lo]);
    FoldInjective(step, Fold(step, d, s[lo..hi]), Fold(step, d, t[lo..hi]), s[hi..]);
    assert s == s[..lo] + s[lo..hi] + s[hi..] && t == t[..lo] + t[lo..hi] + t[hi..];
  }

  /** A change of representation that commutes with one step commutes with the fold. */
  lemma {:induction false} FoldSimulation<V(!new), W(!new), B(!new)>(
      step: (V, B) -> V, step': (W, B) -> W, view: V -> W, c: V, s: seq<B>)
    requires forall v, b :: view(step(v, b)) == step'(view(v), b)
    ensures view(Fold(step, c, s)) == Fold(step', view(c), s)
    decreases s
  {
    if s != [] {
      FoldSimulation(step, step', view, step(c, s[0]), s[1..]);
    }
  }

  /** Right-to-left accumulation: the last element is consumed first. */
  function Gather<W, B>(cons: (B, W) -> W, nil: W, s: seq<B>): W {
    if s == [] then nil else cons(s[0], Gather(cons, nil, s[1..]))
  }

  lemma {:induction false} GatherCons<W, B>(cons: (B, W) -> W, nil: W, b: B, t: seq<B>)
    ensures Gather(cons, nil, [b] + t) == cons(b, Gather(cons, nil, t))
  {
    assert ([b] + t)[1..] == t;
  }

  /** The inputs that always cancel what the state is about to do. */
  function Drain<W, B>(low: W -> B, halve: W -> W, c: W, n: nat): (s: seq<B>)
    ensures |s| == n
    decreases n
  {
    if n == 0 then [] else [low(c)] + Drain(low, halve, halve(c), n - 1)
  }

  lemma {:induction false} FoldDrain<W(!new), B>(
      step: (W, B) -> W, low: W -> B, halve: W -> W, c: W, n: nat)
    requires forall v :: step(v, low(v)) == halve(v)
    ensures Fold(step, c, Drain(low, halve, c, n)) == Iterate(halve, c, n)
    decreases n
  {
    if n > 0 {
      FoldDrain(step, low, halve, halve(c), n - 1);
      assert Drain(low, halve, c, n)[1..] == Drain(low, halve, halve(c), n - 1);
    }
  }

  lemma {:induction false} GatherOfEight<W, B>(cons: (B, W) -> W, nil: W, s: seq<B>)
    requires |s| == 8
    ensures Gather(cons, nil, s) == cons(s[0], cons(s[1], cons(s[2], cons(s[3],
              cons(s[4], cons(s[5], cons(s[6], cons(s[7], nil))))))))
  {
    assert s == [s[0]] + ([s[1]] + ([s[2]] + ([s[3]] + ([s[4]] + ([s[5]] + ([s[6]] + ([s[7]] + [])))))));
    var t7 := [s[7]] + [];
    var t6 := [s[6]] + t7;
    var t5 := [s[5]] + t6;
    var t4 := [s[4]] + t5;
    var t3 := [s[3]] + t4;
    var t2 := [s[2]] + t3;
    var t1 := [s[1]] + t2;
    GatherCons(cons, nil, s[7], []);
    GatherCons(cons, nil, s[6], t7);
    GatherCons(cons, nil, s[5], t6);
    GatherCons(cons, nil, s[4], t5);
    GatherCons(cons, nil, s[3], t4);
    GatherCons(cons, nil, s[2], t3);
    GatherCons(cons, nil, s[1], t2);
    GatherCons(cons, nil, s[0], t1);
  }

  /**
   * When a step can be postponed past a pending word, the whole sequence can be
   * added first and the shifts done afterwards.
   */
  lemma {:induction false} FoldIsAddThenIterate<W(!new), B(!new)>(
      step: (W, B) -> W, shift: W -> W, add: (W, W) -> W, cons: (B, W) -> W, nil: W,
      bit: B -> W, fits: W -> bool, c: W, s: seq<B>)
    requires forall v :: add(v, nil) == v
    requires forall v, b :: step(v, b) == shift(add(v, bit(b)))
    requires forall v, w :: shift(add(v, w)) == add(shift(v), shift(w))
    requires forall v, w, z :: add(v, add(w, z)) == add(add(v, z), w)
    requires forall b, w :: fits(w) ==> shift(cons(b, w)) == add(w, shift(bit(b)))
    requires forall j :: 0 < j <= |s| ==> fits(Gather(cons, nil, s[j..]))
    ensures Fold(step, c, s) == Iterate(shift, add(c, Gather(cons, nil, s)), |s|)
    decreases s
  {
    if s != [] {
      var rest := s[1..];
      forall j | 0 < j <= |rest| ensures fits(Gather(cons, nil, rest[j..])) {
        assert rest[j..] == s[j + 1..];
      }
      FoldIsAddThenIterate(step, shift, add, cons, nil, bit, fits, step(c, s[0]), rest);
      var w := Gather(cons, nil, rest);
      assert fits(w);
      // the word still pending waits while one bit is fed
      assert shift(add(c, cons(s[0], w))) == add(step(c, s[0]), w);
    }
  }

  lemma {:induction false} GatherInjective<W(!new), B(!new)>(
      cons: (B, W) -> W, nil: W, fits: W -> bool, s: seq<B>, t: seq<B>)
    requires |s| == |t| && Gather(cons, nil, s) == Gather(cons, nil, t)
    requires forall a, v, b, w :: fits(v) && fits(w) && cons(a, v) == cons(b, w) ==> a == b && v == w
    requires forall j :: 0 < j <= |s| ==> fits(Gather(cons, nil, s[j..])) && fits(Gather(cons, nil, t[j..]))
    ensures s == t
  {
    if s != [] {
      forall j | 0 < j <= |s[1..]|
        ensures fits(Gather(cons, nil, s[1..][j..])) && fits(Gather(cons, nil, t[1..][j..]))
      {
        assert s[1..][j..] == s[j + 1..] && t[1..][j..] == t[j + 1..];
      }
      assert fits(Gather(cons, nil, s[1..])) && fits(Gather(cons, nil, t[1..]));
      GatherInjective(cons, nil, fits, s[1..], t[1..]);
      assert s == [s[0]] + s[1..] && t == [t[0]] + t[1..];
    }
  }
}

module Crc32 {
  import opened Folds

  type octet = bv8
  type word = bv32

  const CRCPOLY: word := 0xedb88320

  /** One round of the inner loop: mult is CRCPOLY when the low bit is set, else 0. */
  function Shift(c: word): word {
    if c & 1 == 1 then (c >> 1) ^ CRCPOLY else c >> 1
  }

  function Bit(b: bool): word { if b then 1 else 0 }

  function Feed(c: word, b: bool): word { Shift(c ^ Bit(b)) }

  function FeedBits(c: word, bits: seq<bool>): word { Fold(Feed, c, bits) }

  predicate Odd(b: octet) { b & 1 == 1 }

  function ByteBits(b: octet): (bits: seq<bool>)
    ensures |bits| == 8
  {
    [Odd(b), Odd(b >> 1), Odd(b >> 2), Odd(b >> 3), Odd(b >> 4), Odd(b >> 5), Odd(b >> 6), Odd(b >> 7)]
  }

  /** A message as the bits the CRC sees: bytes in order, each least significant bit first. */
  function MessageBits(m: seq<octet>): seq<bool> { Flatten(ByteBits, m) }

  // ---- single-register facts ----

  lemma LowBit(c: word)
    ensures c & 1 == 0 || c & 1 == 1
  {
  }

  lemma XorZero(c: word)
    ensures c ^ 0 == c
  {
  }

  lemma RoundIsShift(c: word, mult: word)
    requires mult == if c & 1 != 0 then CRCPOLY else 0
    ensures (c >> 1) ^ mult == Shift(c)
  {
    LowBit(c);
    XorZero(c >> 1);
  }

  lemma XorLowBits(x: word, y: word)
    ensures (x ^ y) & 1 == (x & 1) ^ (y & 1)
    ensures (x ^ y) >> 1 == (x >> 1) ^ (y >> 1)
  {
  }

  lemma XorRegroup(a: word, b: word, p: word)
    ensures (a ^ p) ^ b == (a ^ b) ^ p
    ensures a ^ (b ^ p) == (a ^ b) ^ p
    ensures (a ^ p) ^ (b ^ p) == a ^ b
  {
  }

  lemma SmallXor()
    ensures (0 as word) ^ 0 == 0 && (0 as word) ^ 1 == 1 && (1 as word) ^ 0 == 1 && (1 as word) ^ 1 == 0
  {
  }

  lemma ShiftLinear(x: word, y: word)
    ensures Shift(x ^ y) == Shift(x) ^ Shift(y)
  {
    XorLowBits(x, y);
    LowBit(x);
    LowBit(y);
    SmallXor();
    XorRegroup(x >> 1, y >> 1, CRCPOLY);
  }

  function Unshift(d: word): word {
    if d & 0x8000_0000 != 0 then ((d ^ CRCPOLY) << 1) | 1 else d << 1
  }

  lemma UnshiftOdd(c: word)
    requires c & 1 == 1
    ensures ((c >> 1) ^ CRCPOLY) & 0x8000_0000 != 0
    ensures ((((c >> 1) ^ CRCPOLY) ^ CRCPOLY) << 1) | 1 == c
  {
  }

  lemma UnshiftEven(c: word)
    requires c & 1 == 0
    ensures (c >> 1) & 0x8000_0000 == 0
    ensures (c >> 1) << 1 == c
  {
  }

  lemma ShiftSetTop(d: word)
    requires d & 0x8000_0000 != 0
    ensures (((d ^ CRCPOLY) << 1) | 1) & 1 == 1
    ensures ((((d ^ CRCPOLY) << 1) | 1) >> 1) ^ CRCPOLY == d
  {
  }

  lemma ShiftClearTop(d: word)
    requires d & 0x8000_0000 == 0
    ensures (d << 1) & 1 == 0
    ensures (d << 1) >> 1 == d
  {
  }

  /** CRCPOLY has its top bit set, so the top bit remembers which branch was taken. */
  lemma UnshiftAfterShift(c: word)
    ensures Unshift(Shift(c)) == c
  {
    LowBit(c);
    if c & 1 == 1 {
      UnshiftOdd(c);
    } else {
      UnshiftEven(c);
    }
  }

  lemma ShiftAfterUnshift(d: word)
    ensures Shift(Unshift(d)) == d
  {
    if d & 0x8000_0000 != 0 {
      ShiftSetTop(d);
    } else {
      ShiftClearTop(d);
    }
  }

  lemma XorCancel(x: word, y: word, b: word)
    requires x ^ b == y ^ b
    ensures x == y
  {
  }

  lemma XorCommutes(x: word, y: word)
    ensures x ^ y == y ^ x
  {
  }

  // ---- up to 32 bits at a time ----

  function Cons(b: bool, w: word): word { Bit(b) | (w << 1) }

  /** The bits as a number, first bit lowest. */
  function Word(s: seq<bool>): word { Gather(Cons, 0, s) }

  function XorWord(x: word, y: word): word { x ^ y }

  predicate TopBitClear(w: word) { w & 0x8000_0000 == 0 }

  /** The k highest bits are zero. */
  predicate TopClear(w: word, k: nat)
    decreases k
  {
    k == 0 || (TopBitClear(w) && TopClear(w << 1, k - 1))
  }

  lemma OrTop(v: word, w: word)
    ensures TopBitClear(v) && TopBitClear(w) ==> TopBitClear(v | w)
    ensures (v | w) << 1 == (v << 1) | (w << 1)
  {
  }

  lemma TopClearOr(v: word, w: word, k: nat)
    requires TopClear(v, k) && TopClear(w, k)
    ensures TopClear(v | w, k)
    decreases k
  {
    if k > 0 {
      OrTop(v, w);
      TopClearOr(v << 1, w << 1, k - 1);
    }
  }

  lemma TopClearLess(w: word, j: nat, k: nat)
    requires j <= k && TopClear(w, k)
    ensures TopClear(w, j)
    decreases k
  {
    if j > 0 {
      TopClearLess(w << 1, j - 1, k - 1);
    }
  }

  lemma TopClearZero(k: nat)
    ensures TopClear(0, k)
    decreases k
  {
    if k > 0 {
      TopClearZero(k - 1);
    }
  }

  /** A register is 32 bits wide: above its lowest bit there are 31 more. */
  lemma TopClearOne()
    ensures TopClear(1, 31)
  {
    assert TopClear(0x2000_0000, 2);
    assert TopClear(0x0800_0000, 4);
    assert TopClear(0x0200_0000, 6);
    assert TopClear(0x0080_0000, 8);
    assert TopClear(0x0020_0000, 10);
    assert TopClear(0x0008_0000, 12);
    assert TopClear(0x0002_0000, 14);
    assert TopClear(0x8000, 16);
    assert TopClear(0x2000, 18);
    assert TopClear(0x800, 20);
    assert TopClear(0x200, 22);
    assert TopClear(0x80, 24);
    assert TopClear(0x20, 26);
    assert TopClear(8, 28);
    assert TopClear(2, 30);
  }

  lemma ConsFits(b: bool, w: word, k: nat)
    requires k <= 31 && TopClear(w, k + 1)
    ensures TopClear(Cons(b, w), k)
  {
    TopClearOne();
    TopClearZero(31);
    TopClearLess(Bit(b), k, 31);
    TopClearOr(Bit(b), w << 1, k);
  }

  lemma {:induction false} WordFits(s: seq<bool>)
    requires |s| <= 32
    ensures TopClear(Word(s), 32 - |s|)
  {
    if s == [] {
      TopClearZero(32);
    } else {
      WordFits(s[1..]);
      ConsFits(s[0], Word(s[1..]), 32 - |s|);
    }
  }

  lemma {:induction false} TailsFit(s: seq<bool>)
    requires |s| <= 32
    ensures forall j :: 0 < j <= |s| ==> TopBitClear(Gather(Cons, 0, s[j..]))
  {
    forall j | 0 < j <= |s| ensures TopBitClear(Gather(Cons, 0, s[j..])) {
      WordFits(s[j..]);
    }
  }

  lemma PendingBits(bit: word, w: word)
    requires w & 0x8000_0000 == 0 && (bit == 0 || bit == 1)
    ensures (bit | (w << 1)) & 1 == bit
    ensures (bit | (w << 1)) >> 1 == w
  {
  }

  lemma ShiftCons(b: bool, w: word)
    requires TopBitClear(w)
    ensures Shift(Cons(b, w)) == w ^ Shift(Bit(b))
  {
    PendingBits(Bit(b), w);
    PendingBits(Bit(b), 0);
    ShiftBit();
    XorZero(w);
  }

  lemma ShiftBit()
    ensures Shift(1) == CRCPOLY && Shift(0) == 0
  {
  }

  lemma RotateWords(v: word, w: word, z: word)
    ensures XorWord(v, XorWord(w, z)) == XorWord(XorWord(v, z), w)
  {
  }

  lemma RegisterLaws()
    ensures forall v: word :: XorWord(v, 0) == v
    ensures forall v: word, b :: Feed(v, b) == Shift(XorWord(v, Bit(b)))
    ensures forall v: word, w: word, z: word ::
              XorWord(v, XorWord(w, z)) == XorWord(XorWord(v, z), w)
  {
    forall v: word ensures XorWord(v, 0) == v { XorZero(v); }
    forall v: word, w: word, z: word
      ensures XorWord(v, XorWord(w, z)) == XorWord(XorWord(v, z), w)
    {
      RotateWords(v, w, z);
    }
  }

  lemma ShiftLaws()
    ensures forall v: word, w: word :: Shift(XorWord(v, w)) == XorWord(Shift(v), Shift(w))
    ensures forall b, w: word :: TopBitClear(w) ==> Shift(Cons(b, w)) == XorWord(w, Shift(Bit(b)))
  {
    forall v: word, w: word ensures Shift(XorWord(v, w)) == XorWord(Shift(v), Shift(w)) {
      ShiftLinear(v, w);
    }
    forall b, w: word | TopBitClear(w) ensures Shift(Cons(b, w)) == XorWord(w, Shift(Bit(b))) {
      ShiftCons(b, w);
    }
  }

  lemma SplitWord(a: word, v: word, b: word, w: word)
    requires a | (v << 1) == b | (w << 1)
    requires (a == 0 || a == 1) && (b == 0 || b == 1)
    requires v & 0x8000_0000 == 0 && w & 0x8000_0000 == 0
    ensures a == b && v == w
  {
  }

  lemma ConsInjective(a: bool, v: word, b: bool, w: word)
    requires TopBitClear(v) && TopBitClear(w) && Cons(a, v) == Cons(b, w)
    ensures a == b && v == w
  {
    SplitWord(Bit(a), v, Bit(b), w);
  }

  /** Up to 32 message bits can be xored in at once and shifted out together. */
  lemma {:induction false} FeedIsXorThenShift(c: word, s: seq<bool>)
    requires |s| <= 32
    ensures FeedBits(c, s) == Iterate(Shift, XorWord(c, Word(s)), |s|)
  {
    RegisterLaws();
    ShiftLaws();
    TailsFit(s);
    FoldIsAddThenIterate(Feed, Shift, XorWord, Cons, 0, Bit, TopBitClear, c, s);
  }

  lemma ConsInjectiveAll()
    ensures forall a, v: word, b, w: word ::
              TopBitClear(v) && TopBitClear(w) && Cons(a, v) == Cons(b, w) ==> a == b && v == w
  {
    forall a, v: word, b, w: word | TopBitClear(v) && TopBitClear(w) && Cons(a, v) == Cons(b, w)
      ensures a == b && v == w
    {
      ConsInjective(a, v, b, w);
    }
  }

  lemma {:induction false} WordInjective(s: seq<bool>, t: seq<bool>)
    requires |s| == |t| <= 32 && Word(s) == Word(t)
    ensures s == t
  {
    ConsInjectiveAll();
    TailsFit(s);
    TailsFit(t);
    GatherInjective(Cons, 0, TopBitClear, s, t);
  }

  lemma PeelByte(b: octet)
    ensures Cons(Odd(b), (b >> 1) as word) == b as word
  {
  }

  lemma ByteShifts(b: octet)
    ensures (b >> 1) >> 1 == b >> 2 && (b >> 2) >> 1 == b >> 3 && (b >> 3) >> 1 == b >> 4
    ensures (b >> 4) >> 1 == b >> 5 && (b >> 5) >> 1 == b >> 6 && (b >> 6) >> 1 == b >> 7
    ensures (b >> 7) >> 1 == 0
  {
  }

  lemma ByteWord(b: octet)
    ensures Word(ByteBits(b)) == b as word
  {
    GatherOfEight(Cons, 0, ByteBits(b));
    ByteShifts(b);
    PeelByte(b);
    PeelByte(b >> 1);
    PeelByte(b >> 2);
    PeelByte(b >> 3);
    PeelByte(b >> 4);
    PeelByte(b >> 5);
    PeelByte(b >> 6);
    PeelByte(b >> 7);
  }

  /** xoring a whole byte in and shifting eight times is feeding its eight bits. */
  lemma ByteRounds(c: word, b: octet)
    ensures Iterate(Shift, c ^ (b as word), 8) == FeedBits(c, ByteBits(b))
  {
    FeedIsXorThenShift(c, ByteBits(b));
    ByteWord(b);
  }

  // ---- the loops of uni_crc32_le ----

  /** The inner loop. */
  method EightRounds(crc: word) returns (r: word)
    ensures r == Iterate(Shift, crc, 8)
  {
    r := crc;
    ghost var target := Iterate(Shift, crc, 8);
    var i := 0;
    while i < 8
      invariant i <= 8
      invariant Iterate(Shift, r, 8 - i) == target
    {
      var mult := if r & 1 != 0 then CRCPOLY else 0;
      ghost var next := Shift(r);
      IterateStep(Shift, r, 8 - i);
      RoundIsShift(r, mult);
      r := (r >> 1) ^ mult;
      assert r == next;
      i := i + 1;
    }
  }

  method Crc32Le(crc: word, data: array<octet>, len: nat) returns (r: word)
    requires len <= data.Length
    ensures r == FeedBits(crc, MessageBits(data[..len]))
  {
    r := crc;
    var n := 0;
    while n < len
      invariant n <= len
      invariant r == FeedBits(crc, MessageBits(data[..n]))
    {
      FeedAppend(crc, data[..n], data[n]);
      assert data[..n + 1] == data[..n] + [data[n]];
      r := EightRounds(r ^ (data[n] as word));
      n := n + 1;
    }
  }

  /** One more byte is one xor and eight more shifts. */
  lemma {:induction false} FeedAppend(c: word, m: seq<octet>, b: octet)
    ensures FeedBits(c, MessageBits(m + [b]))
         == Iterate(Shift, FeedBits(c, MessageBits(m)) ^ (b as word), 8)
  {
    FlattenAppend(ByteBits, m, b);
    FoldConcat(Feed, c, MessageBits(m), ByteBits(b));
    ByteRounds(FeedBits(c, MessageBits(m)), b);
  }

  // ---- the check value of the standard's CRC ----

  function ShiftedByte(c: word): word { Shift(Shift(Shift(Shift(Shift(Shift(Shift(Shift(c)))))))) }

  lemma CheckStep(m: seq<octet>, b: octet, c: word, r: word)
    requires FeedBits(0xffffffff, MessageBits(m)) == c && ShiftedByte(c ^ (b as word)) == r
    ensures FeedBits(0xffffffff, MessageBits(m + [b])) == r
  {
    FeedAppend(0xffffffff, m, b);
    assert Iterate(Shift, c ^ (b as word), 8) == ShiftedByte(c ^ (b as word));
  }

  lemma CheckDigit1()
    ensures ShiftedByte(0xffffffff ^ (0x31 as octet as word)) == 0x7c231048
  {
  }

  lemma CheckDigit2()
    ensures ShiftedByte(0x7c231048 ^ (0x32 as octet as word)) == 0xb0acbb32
  {
  }

  lemma CheckDigit3()
    ensures ShiftedByte(0xb0acbb32 ^ (0x33 as octet as word)) == 0x77b79c2d
  {
  }

  lemma CheckDigit4()
    ensures ShiftedByte(0x77b79c2d ^ (0x34 as octet as word)) == 0x641c1f5c
  {
  }

  lemma CheckDigit5()
    ensures ShiftedByte(0x641c1f5c ^ (0x35 as octet as word)) == 0x340ac5e3
  {
  }

  lemma CheckDigit6()
    ensures ShiftedByte(0x340ac5e3 ^ (0x36 as octet as word)) == 0xf68d2c9e
  {
  }

  lemma CheckDigit7()
    ensures ShiftedByte(0xf68d2c9e ^ (0x37 as octet as word)) == 0xaffc9660
  {
  }

  lemma CheckDigit8()
    ensures ShiftedByte(0xaffc9660 ^ (0x38 as octet as word)) == 0x651f2550
  {
  }

  lemma CheckDigit9()
    ensures ShiftedByte(0x651f2550 ^ (0x39 as octet as word)) == 0x340bc6d9
  {
  }

  lemma CheckDigits1To3()
    ensures FeedBits(0xffffffff, MessageBits([0x31, 0x32, 0x33])) == 0x77b79c2d
  {
    CheckDigit1();
    CheckStep([], 0x31, 0xffffffff, 0x7c231048);
    assert [] + [0x31 as octet] == [0x31];
    CheckDigit2();
    CheckStep([0x31], 0x32, 0x7c231048, 0xb0acbb32);
    assert [0x31] + [0x32 as octet] == [0x31, 0x32];
    CheckDigit3();
    CheckStep([0x31, 0x32], 0x33, 0xb0acbb32, 0x77b79c2d);
    assert [0x31, 0x32] + [0x33 as octet] == [0x31, 0x32, 0x33];
  }

  lemma CheckDigits4To6()
    ensures FeedBits(0xffffffff, MessageBits([0x31, 0x32, 0x33, 0x34, 0x35, 0x36])) == 0xf68d2c9e
  {
    CheckDigits1To3();
    CheckDigit4();
    CheckStep([0x31, 0x32, 0x33], 0x34, 0x77b79c2d, 0x641c1f5c);
    assert [0x31, 0x32, 0x33] + [0x34 as octet] == [0x31, 0x32, 0x33, 0x34];
    CheckDigit5();
    CheckStep([0x31, 0x32, 0x33, 0x34], 0x35, 0x641c1f5c, 0x340ac5e3);
    assert [0x31, 0x32, 0x33, 0x34] + [0x35 as octet] == [0x31, 0x32, 0x33, 0x34, 0x35];
    CheckDigit6();
    CheckStep([0x31, 0x32, 0x33, 0x34, 0x35], 0x36, 0x340ac5e3, 0xf68d2c9e);
    assert [0x31, 0x32, 0x33, 0x34, 0x35] + [0x36 as octet] == [0x31, 0x32, 0x33, 0x34, 0x35, 0x36];
  }

  lemma CheckDigits7To9()
    ensures FeedBits(0xffffffff, MessageBits([0x31, 0x32, 0x33, 0x34, 0x35, 0x36, 0x37, 0x38, 0x39])) == 0x340bc6d9
  {
    CheckDigits4To6();
    CheckDigit7();
    CheckStep([0x31, 0x32, 0x33, 0x34, 0x35, 0x36], 0x37, 0xf68d2c9e, 0xaffc9660);
    assert [0x31, 0x32, 0x33, 0x34, 0x35, 0x36] + [0x37 as octet] == [0x31, 0x32, 0x33, 0x34, 0x35, 0x36, 0x37];
    CheckDigit8();
    CheckStep([0x31, 0x32, 0x33, 0x34, 0x35, 0x36, 0x37], 0x38, 0xaffc9660, 0x651f2550);
    assert [0x31, 0x32, 0x33, 0x34, 0x35, 0x36, 0x37] + [0x38 as octet] == [0x31, 0x32, 0x33, 0x34, 0x35, 0x36, 0x37, 0x38];
    CheckDigit9();
    CheckStep([0x31, 0x32, 0x33, 0x34, 0x35, 0x36, 0x37, 0x38], 0x39, 0x651f2550, 0x340bc6d9);
    assert [0x31, 0x32, 0x33, 0x34, 0x35, 0x36, 0x37, 0x38] + [0x39 as octet] == [0x31, 0x32, 0x33, 0x34, 0x35, 0x36, 0x37, 0x38, 0x39];
  }

  /** The CRC of the nine characters "123456789", from all ones and inverted, is the published 0xcbf43926. */
  lemma CheckValue()
    ensures FeedBits(0xffffffff, MessageBits([0x31, 0x32, 0x33, 0x34, 0x35, 0x36, 0x37, 0x38, 0x39]))
            ^ 0xffffffff == 0xcbf43926
  {
    CheckDigits7To9();
  }

  // ---- linearity ----

  function XorBit(a: bool, b: bool): bool { a != b }

  lemma BitLaw()
    ensures forall a, b :: Bit(XorBit(a, b)) == XorWord(Bit(a), Bit(b))
  {
    SmallXor();
  }

  lemma AssociateWords(v: word, w: word, z: word)
    ensures XorWord(XorWord(v, w), z) == XorWord(v, XorWord(w, z))
  {
  }

  lemma SwapWords(v: word, w: word, z: word)
    ensures XorWord(v, XorWord(w, z)) == XorWord(w, XorWord(v, z))
  {
  }

  lemma ExchangeLaw()
    ensures forall v: word, w: word, a: word, b: word ::
              XorWord(XorWord(v, w), XorWord(a, b)) == XorWord(XorWord(v, a), XorWord(w, b))
  {
    forall v: word, w: word, a: word, b: word
      ensures XorWord(XorWord(v, w), XorWord(a, b)) == XorWord(XorWord(v, a), XorWord(w, b))
    {
      AssociateWords(v, w, XorWord(a, b));
      SwapWords(w, a, b);
      AssociateWords(v, a, XorWord(w, b));
    }
  }

  /** The CRC of a bitwise xor of two messages is the xor of their CRCs. */
  lemma {:induction false} CrcLinear(x: word, y: word, s: seq<bool>, t: seq<bool>)
    requires |s| == |t|
    ensures FeedBits(XorWord(x, y), Zip(XorBit, s, t)) == XorWord(FeedBits(x, s), FeedBits(y, t))
  {
    RegisterLaws();
    ShiftLaws();
    ExchangeLaw();
    BitLaw();
    FoldLinear(Feed, Shift, XorWord, Bit, XorBit, x, y, s, t);
  }

  lemma XorSelf(v: word, w: word)
    ensures v ^ w == 0 <==> v == w
  {
  }

  lemma SameOrDifferent(v: word, w: word)
    ensures XorWord(v, w) == XorWord(v, v) <==> v == w
    ensures XorWord(v, v) == 0
  {
    XorSelf(v, w);
    XorSelf(v, v);
  }

  /** Whether two messages collide depends on their difference alone, not on the initial register. */
  lemma {:induction false} CollisionIffDifferenceVanishes(c: word, s: seq<bool>, t: seq<bool>)
    requires |s| == |t|
    ensures FeedBits(c, s) == FeedBits(c, t) <==> FeedBits(0, Zip(XorBit, s, t)) == 0
  {
    CrcLinear(c, c, s, t);
    SameOrDifferent(c, c);
    SameOrDifferent(FeedBits(c, s), FeedBits(c, t));
  }

  // ---- burst detection ----

  /** CRCPOLY's top bit makes every round reversible, and so every fed bit. */
  lemma StepsInjective()
    ensures Injective(Shift) && InjectiveInState(Feed)
  {
    RegisterLaws();
    CancelLaws();
    StepInjective(Feed, Shift, Unshift, XorWord, Bit);
  }

  lemma CancelLaws()
    ensures forall v: word :: Unshift(Shift(v)) == v
    ensures forall v: word, w: word, b: word :: XorWord(v, b) == XorWord(w, b) ==> v == w
  {
    forall v: word ensures Unshift(Shift(v)) == v { UnshiftAfterShift(v); }
    forall v: word, w: word, b: word | XorWord(v, b) == XorWord(w, b) ensures v == w {
      XorCancel(v, w, b);
    }
  }

  lemma {:induction false} WindowInjective(c: word, s: seq<bool>, t: seq<bool>)
    requires |s| == |t| <= 32 && FeedBits(c, s) == FeedBits(c, t)
    ensures s == t
  {
    FeedIsXorThenShift(c, s);
    FeedIsXorThenShift(c, t);
    StepsInjective();
    IterateInjective(Shift, XorWord(c, Word(s)), XorWord(c, Word(t)), |s|);
    XorCancelLeft(c, Word(s), Word(t));
    WordInjective(s, t);
  }

  lemma XorCancelLeft(c: word, v: word, w: word)
    requires XorWord(c, v) == XorWord(c, w)
    ensures v == w
  {
    XorCommutes(c, v);
    XorCommutes(c, w);
    XorCancel(v, w, c);
  }

  /**
   * Any two different bit messages that differ only inside 32 consecutive bits,
   * at any offset, have different CRCs from every initial register.
   */
  lemma {:induction false} BurstDetected(c: word, s: seq<bool>, t: seq<bool>, at: nat)
    requires AgreeOutside(s, t, at, at + 32) && s != t
    ensures FeedBits(c, s) != FeedBits(c, t)
  {
    var lo := if at <= |s| then at else |s|;
    var hi := if at + 32 <= |s| then at + 32 else |s|;
    WindowToldApart(s[lo..hi], t[lo..hi]);
    if FeedBits(c, s) == FeedBits(c, t) {
      StepsInjective();
      WindowDecides(Feed, c, s, t, lo, hi);
    }
  }

  lemma {:induction false} WindowToldApart(s: seq<bool>, t: seq<bool>)
    requires |s| == |t| <= 32
    ensures ToldApart(Feed, s, t)
  {
    forall d: word | Fold(Feed, d, s) == Fold(Feed, d, t) ensures s == t {
      WindowInjective(d, s, t);
    }
  }

  lemma WidenInjective(a: octet, b: octet)
    requires a as word == b as word
    ensures a == b
  {
  }

  lemma ByteBitsInjective(a: octet, b: octet)
    requires ByteBits(a) == ByteBits(b)
    ensures a == b
  {
    ByteWord(a);
    ByteWord(b);
    WidenInjective(a, b);
  }

  lemma ByteBitsLaws()
    ensures Blocks(ByteBits, 8)
    ensures forall a: octet, b: octet :: ByteBits(a) == ByteBits(b) ==> a == b
  {
    forall a: octet, b: octet | ByteBits(a) == ByteBits(b) ensures a == b {
      ByteBitsInjective(a, b);
    }
  }

  /** The same for bytes: errors confined to four consecutive bytes always change the CRC. */
  lemma {:induction false} ByteBurstDetected(c: word, m: seq<octet>, n: seq<octet>, at: nat)
    requires AgreeOutside(m, n, at, at + 4) && m != n
    ensures FeedBits(c, MessageBits(m)) != FeedBits(c, MessageBits(n))
  {
    var lo := if at <= |m| then at else |m|;
    var hi := if at + 4 <= |m| then at + 4 else |m|;
    ByteBitsLaws();
    FlattenLength(ByteBits, 8, m[..lo]);
    FlattenLength(ByteBits, 8, m[lo..hi]);
    FlattenLength(ByteBits, 8, n[lo..hi]);
    FlattenAgree(ByteBits, m, n, lo, hi);
    if MessageBits(m) == MessageBits(n) {
      FlattenInjective(ByteBits, 8, m, n);
    }
    BurstDetected(c, MessageBits(m), MessageBits(n), 8 * lo);
  }

  // ---- why 32 bits is the limit ----

  predicate Low(c: word) { c & 1 == 1 }

  function Halve(c: word): word { c >> 1 }

  lemma FeedLow(c: word)
    ensures Feed(c, Low(c)) == Halve(c)
  {
    LowBit(c);
    if Low(c) {
      FeedOdd(c);
    } else {
      XorZero(c);
    }
  }

  lemma FeedOdd(c: word)
    requires c & 1 == 1
    ensures Shift(c ^ 1) == c >> 1
  {
    ClearLow(c);
  }

  lemma ClearLow(c: word)
    requires c & 1 == 1
    ensures (c ^ 1) & 1 == 0 && (c ^ 1) >> 1 == c >> 1
  {
  }

  lemma HalvePolynomial()
    ensures Iterate(Halve, CRCPOLY, 32) == 0
  {
    assert Iterate(Halve, 0, 0) == 0;
    assert Iterate(Halve, 0x3, 2) == 0;
    assert Iterate(Halve, 0xe, 4) == 0;
    assert Iterate(Halve, 0x3b, 6) == 0;
    assert Iterate(Halve, 0xed, 8) == 0;
    assert Iterate(Halve, 0x3b6, 10) == 0;
    assert Iterate(Halve, 0xedb, 12) == 0;
    assert Iterate(Halve, 0x3b6e, 14) == 0;
    assert Iterate(Halve, 0xedb8, 16) == 0;
    assert Iterate(Halve, 0x3_b6e2, 18) == 0;
    assert Iterate(Halve, 0xe_db88, 20) == 0;
    assert Iterate(Halve, 0x3b_6e20, 22) == 0;
    assert Iterate(Halve, 0xed_b883, 24) == 0;
    assert Iterate(Halve, 0x3b6_e20c, 26) == 0;
    assert Iterate(Halve, 0xedb_8832, 28) == 0;
    assert Iterate(Halve, 0x3b6e_20c8, 30) == 0;
  }

  /** The generator polynomial itself, 33 bits long. */
  function GeneratorBits(): (s: seq<bool>)
    ensures |s| == 33
  {
    [true] + Drain(Low, Halve, CRCPOLY, 32)
  }

  function Zeros(n: nat): (s: seq<bool>)
    ensures |s| == n
  {
    seq(n, i => false)
  }

  /** A burst of 33 bits can go unnoticed: adding the generator changes no CRC. */
  lemma {:induction false} BurstBoundTight(c: word)
    ensures GeneratorBits() != Zeros(33)
    ensures FeedBits(c, GeneratorBits()) == FeedBits(c, Zeros(33))
  {
    assert GeneratorBits()[0] && !Zeros(33)[0];
    GeneratorVanishes();
    AddingNothing(GeneratorBits());
    CollisionIffDifferenceVanishes(c, GeneratorBits(), Zeros(33));
  }

  lemma AddingNothing(s: seq<bool>)
    ensures Zip(XorBit, s, Zeros(|s|)) == s
  {
    var r := Zip(XorBit, s, Zeros(|s|));
    assert forall i :: 0 <= i < |s| ==> r[i] == s[i];
  }

  lemma {:induction false} GeneratorVanishes()
    ensures FeedBits(0, GeneratorBits()) == 0
  {
    var rest := Drain(Low, Halve, CRCPOLY, 32);
    assert GeneratorBits()[1..] == rest;
    FeedFirst();
    FeedLowAll();
    FoldDrain(Feed, Low, Halve, CRCPOLY, 32);
    HalvePolynomial();
  }

  lemma FeedFirst()
    ensures Feed(0, true) == CRCPOLY
  {
    SmallXor();
    ShiftBit();
  }

  lemma FeedLowAll()
    ensures forall v: word :: Feed(v, Low(v)) == Halve(v)
  {
    forall v: word ensures Feed(v, Low(v)) == Halve(v) { FeedLow(v); }
  }
}
