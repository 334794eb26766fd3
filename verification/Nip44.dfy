/** NIP-44 version 2 padding (Core/Nostr/NIP44.swift). */
module Nip44 {
  import opened Wrappers
  import opened Bits
  import opened BigEndian

  type Data = seq<nat>

  function BitLength(n: nat): nat {
    if n == 0 then 0 else 1 + BitLength(n / 2)
  }

  /** A power of two above `n`, and no more than twice it. */
  lemma {:induction false} PowerAbove(n: nat)
    ensures n < Pow2(BitLength(n)) && (n > 0 ==> Pow2(BitLength(n)) <= 2 * n)
  {
    if n > 0 {
      PowerAbove(n / 2);
    }
  }

  function Chunk(unpadded: nat): (r: nat)
    requires unpadded > 0
    ensures r > 0
  {
    var nextPower := Pow2(BitLength(unpadded - 1));
    if nextPower <= 256 then 32 else nextPower / 8
  }

  function CalcPaddedLen(unpadded: nat): nat {
    if unpadded <= 32 then 32
    else Chunk(unpadded) * ((unpadded - 1) / Chunk(unpadded) + 1)
  }

  // ----- Rounding up -----

  lemma Scale(c: nat, q: int, p: int)
    requires q <= p
    ensures c * q <= c * p
    ensures q < p ==> c * q + c <= c * p
  {
    var d := p - q;
    assert c * p == c * q + c * d;
    assert c * d >= 0;
    if d > 0 {
      assert c * d == c * (d - 1) + c;
      assert c * (d - 1) >= 0;
    }
  }

  lemma QuotientIs(x: nat, c: nat, q: int, r: int)
    requires c > 0 && x == c * q + r && 0 <= r < c
    ensures x / c == q && x % c == r
  {
    var p := x / c;
    assert x == c * p + x % c;
    if p < q {
      Scale(c, p, q);
    } else if q < p {
      Scale(c, q, p);
    }
  }

  function RoundedUp(n: nat, chunk: nat): int
    requires n > 0 && chunk > 0
  {
    chunk * ((n - 1) / chunk + 1)
  }

  lemma RoundUp(n: nat, chunk: nat)
    requires n > 0 && chunk > 0
    ensures n <= RoundedUp(n, chunk) < n + chunk && RoundedUp(n, chunk) % chunk == 0
  {
    var q := (n - 1) / chunk;
    assert n - 1 == chunk * q + (n - 1) % chunk;
    assert chunk * (q + 1) == chunk * q + chunk;
    QuotientIs(RoundedUp(n, chunk), chunk, q + 1, 0);
  }

  /** Nothing between a number and its rounding is a multiple. */
  lemma RoundUpLeast(n: nat, chunk: nat, m: nat)
    requires n > 0 && chunk > 0 && n <= m && m % chunk == 0
    ensures RoundedUp(n, chunk) <= m
  {
    RoundUp(n, chunk);
    var p, q := m / chunk, (n - 1) / chunk;
    assert m == chunk * p;
    assert n - 1 == chunk * q + (n - 1) % chunk;
    if p <= q {
      Scale(chunk, p, q);
    }
    Scale(chunk, q + 1, p);
  }

  lemma RoundUpMonotone(n: nat, m: nat, chunk: nat)
    requires 0 < n <= m && chunk > 0
    ensures RoundedUp(n, chunk) <= RoundedUp(m, chunk)
  {
    RoundUp(m, chunk);
    RoundUpLeast(n, chunk, RoundedUp(m, chunk));
  }

  // ----- The padded length -----

  ghost function NextPower(n: nat): nat
    requires n > 0
  {
    Pow2(BitLength(n - 1))
  }

  lemma {:induction false} PowersOrdered(a: nat, b: nat)
    requires a <= b
    ensures Pow2(a) <= Pow2(b) && (a < b ==> 2 * Pow2(a) <= Pow2(b))
  {
    if a < b {
      PowersOrdered(a, b - 1);
    }
  }

  /** Two powers less than a factor of two apart are the same. */
  lemma PowersApart(a: nat, b: nat)
    requires Pow2(a) < 2 * Pow2(b) && Pow2(b) < 2 * Pow2(a)
    ensures a == b
  {
    if a < b {
      PowersOrdered(a, b);
    } else if b < a {
      PowersOrdered(b, a);
    }
  }

  /** The next power depends only on the power-of-two interval. */
  lemma SamePower(n: nat, m: nat)
    requires 1 < n <= m <= NextPower(n)
    ensures NextPower(m) == NextPower(n)
  {
    PowerAbove(n - 1);
    PowerAbove(m - 1);
    PowersApart(BitLength(n - 1), BitLength(m - 1));
  }

  lemma ChunkDivides(k: nat)
    requires k >= 6
    ensures var chunk := if Pow2(k) <= 256 then 32 else Pow2(k) / 8;
      Pow2(k) % chunk == 0
  {
    if k <= 8 {
      assert Pow2(5) == 32 && Pow2(6) == 64 && Pow2(7) == 128 && Pow2(8) == 256;
    } else {
      PowersOrdered(8, k);
      assert Pow2(8) == 256 by { assert Pow2(4) == 16; assert Pow2(6) == 64; }
      assert Pow2(k) == 8 * Pow2(k - 3) by { assert Pow2(k - 1) == 2 * Pow2(k - 2); }
      QuotientIs(Pow2(k), Pow2(k - 3), 8, 0);
    }
  }

  /** Above 32 the padded length stays within the power-of-two interval. */
  lemma WithinPower(n: nat)
    requires n > 32
    ensures n <= CalcPaddedLen(n) <= NextPower(n) && CalcPaddedLen(n) % Chunk(n) == 0
  {
    var k := BitLength(n - 1);
    PowerAbove(n - 1);
    assert Pow2(5) == 32 by { assert Pow2(3) == 8; }
    if k < 6 {
      PowersOrdered(k, 5);
    }
    ChunkDivides(k);
    RoundUp(n, Chunk(n));
    RoundUpLeast(n, Chunk(n), NextPower(n));
  }

  /** The next power of two is the only one from the input up to less than its double. */
  lemma NextPowerIs(n: nat, k: nat)
    requires n > 1 && n <= Pow2(k) < 2 * n
    ensures NextPower(n) == Pow2(k)
  {
    PowerAbove(n - 1);
    PowersApart(BitLength(n - 1), k);
  }

  /**
   Up to 32 the padded length is 32. Above, it is the least multiple, from the input on, of an
   eighth of the next power of two, but of 32 at least.
   */
  lemma PaddedLeast(n: nat, k: nat, m: nat)
    requires n > 32 ==> n <= Pow2(k) < 2 * n
    ensures n <= 32 ==> CalcPaddedLen(n) == 32
    ensures n > 32 ==>
      var unit := if Pow2(k) <= 256 then 32 else Pow2(k) / 8;
      && unit > 0 && CalcPaddedLen(n) >= n && CalcPaddedLen(n) % unit == 0
      && (m >= n && m % unit == 0 ==> CalcPaddedLen(n) <= m)
  {
    if n > 32 {
      NextPowerIs(n, k);
      RoundUp(n, Chunk(n));
      if m >= n && m % Chunk(n) == 0 {
        RoundUpLeast(n, Chunk(n), m);
      }
    }
  }

  /** Never shorter than the input, and the padding is under max(32, n/4). */
  lemma PaddingBounded(n: nat)
    requires n > 0
    ensures n <= CalcPaddedLen(n)
    ensures CalcPaddedLen(n) - n < 32 || 4 * (CalcPaddedLen(n) - n) < n
  {
    if n > 32 {
      PowerAbove(n - 1);
      RoundUp(n, Chunk(n));
    }
  }

  lemma PaddedMonotone(n: nat, m: nat)
    requires n <= m
    ensures CalcPaddedLen(n) <= CalcPaddedLen(m)
  {
    if n > 32 {
      WithinPower(n);
      WithinPower(m);
      if m <= NextPower(n) {
        SamePower(n, m);
        RoundUpMonotone(n, m, Chunk(n));
      }
    } else if m > 32 {
      WithinPower(m);
    }
  }

  lemma PaddedIdempotent(n: nat)
    ensures CalcPaddedLen(CalcPaddedLen(n)) == CalcPaddedLen(n)
  {
    if n > 32 {
      WithinPower(n);
      var r := CalcPaddedLen(n);
      SamePower(n, r);
      RoundUpLeast(r, Chunk(r), r);
      RoundUp(r, Chunk(r));
    }
  }

  // ----- Padding and unpadding -----

  function Pad(plaintext: Data): Data {
    var u := |plaintext|;
    Put(u % 0x1_0000, 2) + plaintext + BigEndian.Zeros(if CalcPaddedLen(u) > u then CalcPaddedLen(u) - u else 0)
  }

  /** Unpadding, then the text decoder's verdict on the bytes. */
  function Unpad(isText: Data -> bool, padded: Data): Option<Data> {
    if |padded| < 2 then None
    else
      var n := Get(padded[..2]);
      if n < 1 || 2 + n > |padded| || |padded| != 2 + CalcPaddedLen(n) then None
      else if !isText(padded[2..2 + n]) then None
      else Some(padded[2..2 + n])
  }

  lemma HeaderReads(x: Data)
    ensures |Pad(x)| == 2 + (if CalcPaddedLen(|x|) > |x| then CalcPaddedLen(|x|) else |x|)
    ensures Get(Pad(x)[..2]) == |x| % 0x1_0000 && Pad(x)[2..2 + |x|] == x
  {
    Widths();
    GetPut(|x| % 0x1_0000, 2);
    assert Pad(x)[..2] == Put(|x| % 0x1_0000, 2);
  }

  lemma TooLongRefused(isText: Data -> bool, x: Data)
    requires |x| > 65535
    ensures Unpad(isText, Pad(x)) == None
  {
    HeaderReads(x);
    LargestPadded(|x| % 0x1_0000);
    PaddingBounded(|x|);
  }

  lemma AllowedComesBack(isText: Data -> bool, x: Data)
    requires 1 <= |x| <= 65535
    ensures Unpad(isText, Pad(x)) == if isText(x) then Some(x) else None
  {
    HeaderReads(x);
    PaddingBounded(|x|);
  }

  /** Exactly the texts of the lengths the standard allows come back; anything else is refused. */
  lemma PaddingRoundTrip(isText: Data -> bool, x: Data)
    ensures Unpad(isText, Pad(x)) == if 1 <= |x| <= 65535 && isText(x) then Some(x) else None
  {
    if |x| == 0 {
      HeaderReads(x);
    } else if |x| <= 65535 {
      AllowedComesBack(isText, x);
    } else {
      TooLongRefused(isText, x);
    }
  }

  lemma LargestPadded(n: nat)
    requires n <= 65535
    ensures n > 0 ==> CalcPaddedLen(n) <= 65536
  {
    PaddedMonotone(n, 65536);
    WithinPower(65536);
    PowerAbove(65535);
    assert CalcPaddedLen(65536) <= NextPower(65536);
    SixteenBits();
  }

  lemma SixteenBits()
    ensures Pow2(BitLength(65535)) == 65536
  {
    var k := BitLength(65535);
    PowerAbove(65535);
    assert Pow2(16) == 65536 by {
      assert Pow2(4) == 16;
      assert Pow2(8) == 256;
      assert Pow2(12) == 4096;
    }
    if k < 16 {
      PowersOrdered(k, 15);
    } else if k > 16 {
      PowersOrdered(16, k);
    }
  }
}
