/**
 The bech32 checksum: a fold over a 30-bit register whose step is linear and invertible.
 Symbols are 5-bit words held in 32 bits. The theory is stated for any such step over
 any exclusive-or-like operation; the module `BechChecksum` supplies the BIP-173 step and `^`.
 */
module Polymod {

  type Op = (bv32, bv32) -> bv32

  const REGISTER: bv32 := 0x4000_0000

  function Fold<T>(step: (T, T) -> T, chk: T, values: seq<T>): T {
    if values == [] then chk else step(Fold(step, chk, values[..|values| - 1]), values[|values| - 1])
  }

  /** Names the points at which a law below is used; the laws trigger on nothing else. */
  predicate At<T>(x: T, y: T) { true }

  /** The laws of exclusive or that the theory uses, on whole words, registers and symbols. */
  ghost predicate XorLike(op: Op) {
    forall x: bv32, y: bv32 {:trigger At(x, y)} ::
      && op(x, x) == 0 && op(x, 0) == x && op(0, x) == x && op(x, op(x, y)) == y
      && (x < REGISTER && y < REGISTER ==> op(x, y) < REGISTER)
      && (x < 32 && y < 32 ==> op(x, y) < 32)
  }

  ghost predicate Linear<T(!new)>(step: (T, T) -> T, op: (T, T) -> T) {
    forall a: T, b: T, u: T, v: T {:trigger At(a, b), At(u, v)} ::
      step(op(a, b), op(u, v)) == op(step(a, u), step(b, v))
  }

  /** The step stays in the register and sends nothing but zero to zero. */
  ghost predicate Invertible(step: Op) {
    && (forall c: bv32, v: bv32 :: c < REGISTER && v < 32 ==> step(c, v) < REGISTER)
    && (forall d: bv32 :: d < REGISTER && step(d, 0) == 0 ==> d == 0)
  }

  /** A register with its top five bits clear just takes the symbol in from the right. */
  ghost predicate Shifting(step: Op) {
    forall c: bv32, v: bv32 :: c < 0x200_0000 ==> step(c, v) == (c << 5) ^ v
  }

  ghost predicate Checksum(step: Op, op: Op) {
    XorLike(op) && Linear(step, op) && Invertible(step) && Shifting(step)
  }

  ghost predicate Symbols(values: seq<bv32>) {
    forall i :: 0 <= i < |values| ==> values[i] < 32
  }

  function Zeros(n: nat): (r: seq<bv32>)
    ensures |r| == n && forall i :: 0 <= i < n ==> r[i] == 0
  {
    seq(n, _ => 0)
  }

  function Zip<T>(op: (T, T) -> T, u: seq<T>, v: seq<T>): (r: seq<T>)
    requires |u| == |v|
    ensures |r| == |u| && forall i :: 0 <= i < |r| ==> r[i] == op(u[i], v[i])
  {
    seq(|u|, i requires 0 <= i < |u| => op(u[i], v[i]))
  }

  // ----- The fold -----

  lemma {:induction false} FoldFits(step: Op, chk: bv32, values: seq<bv32>)
    requires Invertible(step) && chk < REGISTER && Symbols(values)
    ensures Fold(step, chk, values) < REGISTER
  {
    if values != [] {
      FoldFits(step, chk, values[..|values| - 1]);
    }
  }

  lemma {:induction false} FoldConcat<T>(step: (T, T) -> T, chk: T, a: seq<T>, b: seq<T>)
    ensures Fold(step, chk, a + b) == Fold(step, Fold(step, chk, a), b)
  {
    if b == [] {
      assert a + b == a;
    } else {
      FoldConcat(step, chk, a, b[..|b| - 1]);
      assert (a + b)[..|a + b| - 1] == a + b[..|b| - 1];
    }
  }

  lemma {:induction false} FoldLinear<T(!new)>(step: (T, T) -> T, op: (T, T) -> T, a: T, b: T, u: seq<T>, v: seq<T>)
    requires Linear(step, op) && |u| == |v|
    ensures Fold(step, op(a, b), Zip(op, u, v)) == op(Fold(step, a, u), Fold(step, b, v))
  {
    if u != [] {
      var n := |u| - 1;
      FoldLinear(step, op, a, b, u[..n], v[..n]);
      assert Zip(op, u, v)[..n] == Zip(op, u[..n], v[..n]);
      assert At(Fold(step, a, u[..n]), Fold(step, b, v[..n])) && At(u[n], v[n]);
    }
  }

  /** A difference in the register never dies out, however long the common rest. */
  lemma {:induction false} DifferenceSurvives(step: Op, d: bv32, n: nat)
    requires Invertible(step) && d < REGISTER && d != 0
    ensures Fold(step, d, Zeros(n)) != 0
  {
    if n > 0 {
      DifferenceSurvives(step, d, n - 1);
      assert Zeros(n)[..n - 1] == Zeros(n - 1);
      FoldFits(step, d, Zeros(n - 1));
    }
  }

  lemma Differ(op: Op, a: bv32, b: bv32)
    requires XorLike(op)
    ensures a == b <==> op(a, b) == 0
    ensures a < REGISTER && b < REGISTER ==> op(a, b) < REGISTER
    ensures a < 32 && b < 32 ==> op(a, b) < 32
  {
    assert At(a, b);
  }

  lemma CommonRest(step: Op, op: Op, a: bv32, b: bv32, rest: seq<bv32>)
    requires Checksum(step, op) && a < REGISTER && b < REGISTER && a != b
    ensures Fold(step, a, rest) != Fold(step, b, rest)
  {
    FoldLinear(step, op, a, b, rest, rest);
    forall i | 0 <= i < |rest|
      ensures Zip(op, rest, rest)[i] == 0
    {
      Differ(op, rest[i], rest[i]);
    }
    assert Zip(op, rest, rest) == Zeros(|rest|);
    Differ(op, a, b);
    Differ(op, Fold(step, a, rest), Fold(step, b, rest));
    DifferenceSurvives(step, op(a, b), |rest|);
  }

  // ----- Six symbols fill the register -----

  function Pack(c0: bv32, c1: bv32, c2: bv32, c3: bv32, c4: bv32, c5: bv32): bv32 {
    (((((((((c0 << 5) ^ c1) << 5) ^ c2) << 5) ^ c3) << 5) ^ c4) << 5) ^ c5
  }

  /** The six symbols of a register value, most significant first. */
  function Unpack(m: bv32): (r: seq<bv32>)
    ensures |r| == 6 && Symbols(r)
  {
    [(m >> 25) & 31, (m >> 20) & 31, (m >> 15) & 31, (m >> 10) & 31, (m >> 5) & 31, m & 31]
  }

  lemma PackedFits(c: bv32, v: bv32)
    requires v < 32
    ensures c < 1 ==> (c << 5) ^ v < 0x20
    ensures c < 0x20 ==> (c << 5) ^ v < 0x400
    ensures c < 0x400 ==> (c << 5) ^ v < 0x8000
    ensures c < 0x8000 ==> (c << 5) ^ v < 0x10_0000
    ensures c < 0x10_0000 ==> (c << 5) ^ v < 0x200_0000
  {
  }

  lemma FoldSix(step: Op, c: seq<bv32>)
    requires Shifting(step) && |c| == 6 && Symbols(c)
    ensures Fold(step, 0, c) == Pack(c[0], c[1], c[2], c[3], c[4], c[5])
  {
    assert c[..5][..4] == c[..4] && c[..4][..3] == c[..3] && c[..3][..2] == c[..2] && c[..2][..1] == c[..1];
    var s1 := Fold(step, 0, c[..1]);
    assert c[..1][..0] == [] && Fold(step, 0, c[..1][..0]) == 0;
    assert s1 == step(0, c[0]);
    PackedFits(0, c[0]);
    assert (0 << 5) ^ c[0] == c[0];
    var s2 := Fold(step, 0, c[..2]);
    assert s2 == step(s1, c[1]);
    PackedFits(s1, c[1]);
    var s3 := Fold(step, 0, c[..3]);
    assert s3 == step(s2, c[2]);
    PackedFits(s2, c[2]);
    var s4 := Fold(step, 0, c[..4]);
    assert s4 == step(s3, c[3]);
    PackedFits(s3, c[3]);
    var s5 := Fold(step, 0, c[..5]);
    assert s5 == step(s4, c[4]);
    PackedFits(s4, c[4]);
  }

  lemma PackUnpack(m: bv32)
    requires m < REGISTER
    ensures Pack((m >> 25) & 31, (m >> 20) & 31, (m >> 15) & 31, (m >> 10) & 31, (m >> 5) & 31, m & 31) == m
  {
  }

  lemma UnpackPack(c0: bv32, c1: bv32, c2: bv32, c3: bv32, c4: bv32, c5: bv32)
    requires c0 < 32 && c1 < 32 && c2 < 32 && c3 < 32 && c4 < 32 && c5 < 32
    ensures Unpack(Pack(c0, c1, c2, c3, c4, c5)) == [c0, c1, c2, c3, c4, c5]
  {
  }

  /** Six symbols after an empty register are that register, and nothing else gives it. */
  lemma SixSymbols(step: Op, c: seq<bv32>, m: bv32)
    requires Shifting(step) && |c| == 6 && Symbols(c) && m < REGISTER
    ensures Fold(step, 0, c) == m <==> c == Unpack(m)
  {
    FoldSix(step, c);
    PackUnpack(m);
    UnpackPack(c[0], c[1], c[2], c[3], c[4], c[5]);
    assert c == [c[0], c[1], c[2], c[3], c[4], c[5]];
  }

  // ----- The checksum laws -----

  /** A suffix acts on a register as on an empty one, moved by where zeros lead. */
  lemma SuffixActs(step: Op, op: Op, p: bv32, c: seq<bv32>)
    requires XorLike(op) && Linear(step, op)
    ensures Fold(step, p, c) == op(Fold(step, p, Zeros(|c|)), Fold(step, 0, c))
  {
    FoldLinear(step, op, p, 0, Zeros(|c|), c);
    assert At(p, p);
    forall i | 0 <= i < |c|
      ensures op(0, c[i]) == c[i]
    {
      assert At(c[i], c[i]);
    }
    assert Zip(op, Zeros(|c|), c) == c;
  }

  lemma Solve(op: Op, q: bv32, f: bv32)
    requires XorLike(op)
    ensures op(q, f) == 1 <==> f == op(q, 1)
  {
    assert At(q, f) && At(q, 1);
  }

  /** A checksum is accepted after a prefix exactly when it is the one computed for it. */
  lemma ChecksumUnique(step: Op, op: Op, prefix: seq<bv32>, c: seq<bv32>)
    requires Checksum(step, op) && Symbols(prefix) && |c| == 6 && Symbols(c)
    ensures Fold(step, 1, prefix + c) == 1 <==> c == Unpack(op(Fold(step, 1, prefix + Zeros(6)), 1))
  {
    var p := Fold(step, 1, prefix);
    FoldFits(step, 1, prefix);
    FoldConcat(step, 1, prefix, c);
    FoldConcat(step, 1, prefix, Zeros(6));
    FoldFits(step, p, Zeros(6));
    var q := Fold(step, p, Zeros(6));
    SuffixActs(step, op, p, c);
    Differ(op, q, 1);
    SixSymbols(step, c, op(q, 1));
    Solve(op, q, Fold(step, 0, c));
  }

  lemma {:induction false} ZeroFold(step: Op, n: nat)
    requires Shifting(step)
    ensures Fold(step, 0, Zeros(n)) == 0
  {
    if n > 0 {
      ZeroFold(step, n - 1);
      assert Zeros(n)[..n - 1] == Zeros(n - 1);
      assert (0 as bv32 << 5) ^ 0 == 0;
    }
  }

  /** Up to six symbols that are not all zero leave a nonzero register. */
  lemma BurstNonzero(step: Op, c: seq<bv32>)
    requires Shifting(step) && |c| <= 6 && Symbols(c) && c != Zeros(|c|)
    ensures Fold(step, 0, c) != 0
  {
    var n := 6 - |c|;
    var d := Zeros(n) + c;
    FoldConcat(step, 0, Zeros(n), c);
    ZeroFold(step, n);
    SixSymbols(step, d, 0);
    assert Unpack(0) == Zeros(6);
    assert d[n..] == c && Zeros(6)[n..] == Zeros(|c|);
  }

  /**
   Two words that agree before and after a window of at most six symbols, and differ in
   it, have different checksums, whatever their length.
   */
  lemma BurstDetected(step: Op, op: Op, prefix: seq<bv32>, x: seq<bv32>, y: seq<bv32>, rest: seq<bv32>)
    requires Checksum(step, op) && Symbols(prefix) && Symbols(x) && Symbols(y)
    requires |x| == |y| <= 6 && x != y
    ensures Fold(step, 1, prefix + x + rest) != Fold(step, 1, prefix + y + rest)
  {
    var p := Fold(step, 1, prefix);
    FoldConcat(step, 1, prefix, x);
    FoldConcat(step, 1, prefix, y);
    FoldConcat(step, 1, prefix + x, rest);
    FoldConcat(step, 1, prefix + y, rest);
    var a, b := Fold(step, p, x), Fold(step, p, y);
    FoldFits(step, 1, prefix);
    FoldFits(step, p, x);
    FoldFits(step, p, y);
    FoldLinear(step, op, p, p, x, y);
    Differ(op, p, p);
    var d := Zip(op, x, y);
    forall i | 0 <= i < |d|
      ensures d[i] < 32 && (d[i] == 0 <==> x[i] == y[i])
    {
      Differ(op, x[i], y[i]);
    }
    assert d != Zeros(|d|);
    BurstNonzero(step, d);
    Differ(op, a, b);
    CommonRest(step, op, a, b, rest);
  }
}
