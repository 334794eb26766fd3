/** Numbers as most-significant-first bit strings of a fixed width. */
module Bits {

  function Pow2(n: nat): (r: nat)
    ensures r >= 1
  {
    if n == 0 then 1 else 2 * Pow2(n - 1)
  }

  /** The low `w` bits of `v`. */
  function ToBits(v: nat, w: nat): (r: seq<bool>)
    ensures |r| == w
  {
    if w == 0 then [] else ToBits(v / 2, w - 1) + [v % 2 == 1]
  }

  function FromBits(b: seq<bool>): (r: nat)
    ensures r < Pow2(|b|)
  {
    if b == [] then 0 else 2 * FromBits(b[..|b| - 1]) + (if b[|b| - 1] then 1 else 0)
  }

  function Zeros(n: nat): (r: seq<bool>)
    ensures |r| == n && forall i :: 0 <= i < n ==> !r[i]
  {
    seq(n, _ => false)
  }

  predicate AllZero(b: seq<bool>) {
    forall i :: 0 <= i < |b| ==> !b[i]
  }

  lemma {:induction false} ToFromBits(b: seq<bool>)
    ensures ToBits(FromBits(b), |b|) == b
  {
    if b != [] {
      ToFromBits(b[..|b| - 1]);
      assert FromBits(b) / 2 == FromBits(b[..|b| - 1]);
    }
  }

  lemma {:induction false} FromToBits(v: nat, w: nat)
    requires v < Pow2(w)
    ensures FromBits(ToBits(v, w)) == v
  {
    if w > 0 {
      FromToBits(v / 2, w - 1);
      assert ToBits(v, w)[..w - 1] == ToBits(v / 2, w - 1);
    }
  }

  // ----- Shifts and masks, one bit at a time -----

  function Shr(v: nat, n: nat): nat {
    if n == 0 then v else Shr(v / 2, n - 1)
  }

  function Shl(v: nat, n: nat): nat {
    if n == 0 then v else 2 * Shl(v, n - 1)
  }

  /** `v & ((1 << n) - 1)`. */
  function Low(v: nat, n: nat): (r: nat)
    ensures r < Pow2(n)
  {
    if n == 0 then 0 else 2 * Low(v / 2, n - 1) + v % 2
  }

  /** A wide group is its high part followed by its low part. */
  lemma {:induction false} SplitBits(v: nat, hi: nat, lo: nat)
    ensures ToBits(v, hi + lo) == ToBits(Shr(v, lo), hi) + ToBits(v, lo)
  {
    if lo > 0 {
      SplitBits(v / 2, hi, lo - 1);
    }
  }

  /** Low bits do not see a mask at or above them. */
  lemma {:induction false} MaskedBits(v: nat, w: nat, mask: nat)
    requires w <= mask
    ensures ToBits(Low(v, mask), w) == ToBits(v, w)
  {
    if w > 0 {
      MaskedBits(v / 2, w - 1, mask - 1);
    }
  }

  /** Shifting a group in from the right appends its bits. */
  lemma {:induction false} AppendBits(acc: nat, bits: nat, v: nat, w: nat)
    requires v < Pow2(w)
    ensures ToBits(Shl(acc, w) + v, bits + w) == ToBits(acc, bits) + ToBits(v, w)
  {
    if w > 0 {
      assert (Shl(acc, w) + v) / 2 == Shl(acc, w - 1) + v / 2;
      AppendBits(acc, bits, v / 2, w - 1);
    }
  }

  // ----- Streams of groups -----

  predicate Fits(d: seq<nat>, w: nat) {
    forall i :: 0 <= i < |d| ==> d[i] < Pow2(w)
  }

  function Flatten(d: seq<nat>, w: nat): seq<bool> {
    if d == [] then [] else ToBits(d[0], w) + Flatten(d[1..], w)
  }

  lemma {:induction false} FlattenConcat(a: seq<nat>, b: seq<nat>, w: nat)
    ensures Flatten(a + b, w) == Flatten(a, w) + Flatten(b, w)
  {
    if a == [] {
      assert a + b == b;
    } else {
      FlattenConcat(a[1..], b, w);
      assert (a + b)[1..] == a[1..] + b;
    }
  }

  lemma FlattenSnoc(a: seq<nat>, v: nat, w: nat)
    ensures Flatten(a + [v], w) == Flatten(a, w) + ToBits(v, w)
  {
    FlattenConcat(a, [v], w);
    assert Flatten([v], w) == ToBits(v, w) + Flatten([], w);
  }

  lemma {:induction false} FlattenLength(d: seq<nat>, w: nat)
    ensures |Flatten(d, w)| == |d| * w
  {
    if d != [] {
      FlattenLength(d[1..], w);
      assert |d| * w == (|d| - 1) * w + w;
    }
  }

  /** A bit string determines its groups and its short remainder. */
  lemma {:induction false} GroupsUnique(a: seq<nat>, x: seq<bool>, b: seq<nat>, y: seq<bool>, w: nat)
    requires w > 0 && |x| < w && |y| < w && Fits(a, w) && Fits(b, w)
    requires Flatten(a, w) + x == Flatten(b, w) + y
    ensures a == b && x == y
  {
    FlattenSplits(a, x, w);
    FlattenSplits(b, y, w);
    if a != [] && b != [] {
      FromToBits(a[0], w);
      FromToBits(b[0], w);
      GroupsUnique(a[1..], x, b[1..], y, w);
    }
  }

  lemma FlattenSplits(a: seq<nat>, x: seq<bool>, w: nat)
    ensures a == [] ==> Flatten(a, w) + x == x
    ensures a != [] ==> var l := Flatten(a, w) + x;
      |l| >= w + |x| && l[..w] == ToBits(a[0], w) && l[w..] == Flatten(a[1..], w) + x
  {
    if a == [] {
      assert Flatten(a, w) == [];
    } else {
      ConcatSplits(ToBits(a[0], w), Flatten(a[1..], w), x);
    }
  }

  lemma ConcatSplits(h: seq<bool>, t: seq<bool>, x: seq<bool>)
    ensures var l := (h + t) + x;
      |l| >= |h| + |x| && l[..|h|] == h && l[|h|..] == t + x
  {
  }

  /** Cut a bit string into whole groups and a short remainder. */
  function Groups(b: seq<bool>, w: nat): (r: (seq<nat>, seq<bool>))
    requires w > 0
    ensures |r.1| < w
  {
    if |b| < w then ([], b)
    else
      var (g, rest) := Groups(b[w..], w);
      ([FromBits(b[..w])] + g, rest)
  }

  lemma {:induction false} GroupsCover(b: seq<bool>, w: nat)
    requires w > 0
    ensures var (g, rest) := Groups(b, w);
      Fits(g, w) && |rest| < w && Flatten(g, w) + rest == b
  {
    if |b| >= w {
      var (g, rest) := Groups(b[w..], w);
      GroupsCover(b[w..], w);
      OneGroupMore(b[..w], g, rest);
      assert b == b[..w] + b[w..];
    }
  }

  lemma OneGroupMore(h: seq<bool>, g: seq<nat>, rest: seq<bool>)
    requires Fits(g, |h|)
    ensures Fits([FromBits(h)] + g, |h|)
    ensures Flatten([FromBits(h)] + g, |h|) + rest == h + (Flatten(g, |h|) + rest)
  {
    ToFromBits(h);
    assert ([FromBits(h)] + g)[1..] == g;
  }

  /** Any other reading of the same bits as groups and remainder is this one. */
  lemma GroupsAre(b: seq<bool>, w: nat, g: seq<nat>, rest: seq<bool>)
    requires w > 0 && Fits(g, w) && |rest| < w && Flatten(g, w) + rest == b
    ensures Groups(b, w) == (g, rest)
  {
    GroupsCover(b, w);
    GroupsUnique(g, rest, Groups(b, w).0, Groups(b, w).1, w);
  }
}
