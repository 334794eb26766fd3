/** Fixed-width big-endian integers on byte strings. */
module BigEndian {

  predicate Bytes(b: seq<nat>) {
    forall i :: 0 <= i < |b| ==> b[i] < 256
  }

  function Zeros(n: nat): (r: seq<nat>)
    ensures |r| == n && Bytes(r)
  {
    seq(n, _ => 0)
  }

  function Pow256(n: nat): (r: nat)
    ensures r >= 1
  {
    if n == 0 then 1 else 256 * Pow256(n - 1)
  }

  /** The low `n` bytes of `v`, most significant first. */
  function Put(v: nat, n: nat): (r: seq<nat>)
    ensures |r| == n && Bytes(r)
  {
    if n == 0 then [] else Put(v / 256, n - 1) + [v % 256]
  }

  function Get(b: seq<nat>): nat {
    if b == [] then 0 else 256 * Get(b[..|b| - 1]) + b[|b| - 1]
  }

  lemma {:induction false} GetPut(v: nat, n: nat)
    requires v < Pow256(n)
    ensures Get(Put(v, n)) == v
  {
    if n > 0 {
      GetPut(v / 256, n - 1);
      assert Put(v, n)[..n - 1] == Put(v / 256, n - 1);
    }
  }

  lemma {:induction false} PutGet(b: seq<nat>)
    requires Bytes(b)
    ensures Get(b) < Pow256(|b|) && Put(Get(b), |b|) == b
  {
    if b != [] {
      PutGet(b[..|b| - 1]);
      assert Get(b) / 256 == Get(b[..|b| - 1]);
    }
  }

  lemma Widths()
    ensures Pow256(2) == 0x1_0000 && Pow256(4) == 0x1_0000_0000 && Pow256(8) == 0x1_0000_0000_0000_0000
  {
    assert Pow256(2) == 256 * Pow256(1);
    assert Pow256(4) == 256 * Pow256(3);
    assert Pow256(6) == 256 * Pow256(5);
    assert Pow256(8) == 256 * Pow256(7);
  }

  lemma DivDiv(v: nat, p: nat)
    requires p >= 1
    ensures v / 256 / p == v / (256 * p)
  {
    var x := v / 256;
    var q, r := x / p, x % p;
    assert x == p * q + r;
    assert v == (256 * p) * q + (256 * r + v % 256);
    assert 256 * r + v % 256 < 256 * p;
    Quotient(v, 256 * p, q, 256 * r + v % 256);
  }

  lemma Scaled(d: nat, a: nat, b: nat)
    requires a < b
    ensures d * a + d <= d * b
  {
    assert d * (a + 1) <= d * b;
  }

  lemma Quotient(v: nat, d: nat, q: nat, r: nat)
    requires d > 0 && v == d * q + r && r < d
    ensures v / d == q
  {
    var k := v / d;
    assert v == d * k + v % d && 0 <= v % d < d;
    if k < q {
      Scaled(d, k, q);
    } else if k > q {
      Scaled(d, q, k);
    }
  }

  /** The most significant byte comes first. */
  lemma {:induction false} PutAt(v: nat, n: nat, i: nat)
    requires i < n
    ensures Put(v, n)[i] == v / Pow256(n - 1 - i) % 256
  {
    if i < n - 1 {
      PutAt(v / 256, n - 1, i);
      DivDiv(v, Pow256(n - 2 - i));
    }
  }
}
