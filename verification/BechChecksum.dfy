/** The BIP-173 generator and its loop (Core/Nostr/Bech32.swift), an instance of `Polymod`. */
module BechChecksum {
  import opened Polymod

  const XOR: Op := (x: bv32, y: bv32) => x ^ y

  type Fn = bv32 -> bv32

  const LOW: Fn := (top: bv32) => Low(top)

  const HIGH: Fn := (top: bv32) => High(top)

  const MIX: Fn := Sum(LOW, HIGH)

  const STEP: Op := StepOf(MIX)

  function Generator(i: nat): bv32
    requires i < 5
  {
    if i == 0 then 0x3b6a_57b2 else if i == 1 then 0x2650_8e6d else if i == 2 then 0x1ea1_19fa
    else if i == 3 then 0x3d42_33dd else 0x2a14_62b3
  }

  /** The generators picked by the first `n` bits of `top`, summed. */
  function Picked(top: bv32, n: nat): bv32
    requires n <= 5
  {
    if n == 0 then 0
    else Picked(top, n - 1) ^ (if (top >> (n - 1)) & 1 != 0 then Generator(n - 1) else 0)
  }

  /** The first three generators picked by `top`, and the last two. */
  function Low(top: bv32): bv32 {
    (if top & 1 != 0 then 0x3b6a_57b2 else 0) ^ (if top & 2 != 0 then 0x2650_8e6d else 0)
    ^ (if top & 4 != 0 then 0x1ea1_19fa else 0)
  }

  function High(top: bv32): bv32 {
    (if top & 8 != 0 then 0x3d42_33dd else 0) ^ (if top & 16 != 0 then 0x2a14_62b3 else 0)
  }

  function Sum(f: Fn, g: Fn): Fn { (x: bv32) => f(x) ^ g(x) }

  function Shifted(chk: bv32): bv32 { (chk & 0x1ff_ffff) << 5 }

  function StepOf(mix: bv32 -> bv32): Op {
    (chk: bv32, v: bv32) => StepWith(mix, chk, v)
  }

  function StepWith(mix: bv32 -> bv32, chk: bv32, v: bv32): bv32 {
    Shifted(chk) ^ v ^ mix(chk >> 25)
  }

  lemma Pick(top: bv32, n: nat, rest: bv32)
    requires 0 < n <= 5 && rest == Picked(top, n - 1)
    ensures Picked(top, n) == rest ^ (if (top >> (n - 1)) & 1 != 0 then Generator(n - 1) else 0)
  {
  }

  lemma MaskBits(top: bv32)
    ensures (top >> 0) & 1 != 0 <==> top & 1 != 0
    ensures (top >> 1) & 1 != 0 <==> top & 2 != 0
    ensures (top >> 2) & 1 != 0 <==> top & 4 != 0
    ensures (top >> 3) & 1 != 0 <==> top & 8 != 0
    ensures (top >> 4) & 1 != 0 <==> top & 16 != 0
  {
  }

  lemma PickedIsSum(top: bv32)
    ensures Picked(top, 5) == Low(top) ^ High(top)
  {
    MaskBits(top);
    Pick(top, 1, 0);
    Assoc(0, 0, if top & 1 != 0 then 0x3b6a_57b2 else 0);
    Pick(top, 2, Picked(top, 1));
    Pick(top, 3, Picked(top, 2));
    Pick(top, 4, Picked(top, 3));
    Pick(top, 5, Picked(top, 4));
  }

  /** The inner loop of the source. */
  method Stir(base: bv32, top: bv32) returns (r: bv32)
    ensures r == base ^ Picked(top, 5)
  {
    r := base;
    for i := 0 to 5
      invariant r == base ^ Picked(top, i)
    {
      Assoc(base, Picked(top, i), if (top >> i) & 1 != 0 then Generator(i) else 0);
      if (top >> i) & 1 != 0 {
        r := r ^ Generator(i);
      }
    }
  }

  lemma StepOfIs(mix: bv32 -> bv32, chk: bv32, v: bv32)
    ensures StepOf(mix)(chk, v) == (((chk & 0x1ff_ffff) << 5) ^ v) ^ mix(chk >> 25)
  {
  }

  lemma MixIs(top: bv32)
    ensures MIX(top) == Picked(top, 5)
  {
    PickedIsSum(top);
    SumIs(LOW, HIGH, top);
  }

  lemma StepIs(chk: bv32, v: bv32)
    ensures STEP(chk, v) == (((chk & 0x1ff_ffff) << 5) ^ v) ^ Picked(chk >> 25, 5)
  {
    StepOfIs(MIX, chk, v);
    MixIs(chk >> 25);
  }

  lemma Assoc(x: bv32, y: bv32, z: bv32)
    ensures (x ^ y) ^ z == x ^ (y ^ z) && y ^ 0 == y && 0 ^ z == z
  {
  }

  /** The source's two loops are the fold of `STEP`. */
  method Run(values: seq<bv32>) returns (chk: bv32)
    ensures chk == Fold(STEP, 1, values)
  {
    chk := 1;
    for k := 0 to |values|
      invariant chk == Fold(STEP, 1, values[..k])
    {
      StepIs(chk, values[k]);
      chk := Stir(((chk & 0x1ff_ffff) << 5) ^ values[k], chk >> 25);
      assert values[..k + 1][..k] == values[..k];
    }
    assert values[..|values|] == values;
  }

  // ----- It is a checksum -----

  lemma LowLinear(s: bv32, t: bv32)
    ensures Low(s ^ t) == Low(s) ^ Low(t)
  {
  }

  lemma HighLinear(s: bv32, t: bv32)
    ensures High(s ^ t) == High(s) ^ High(t)
  {
  }

  lemma LowAt(s: bv32, t: bv32)
    ensures LOW(s ^ t) == LOW(s) ^ LOW(t)
  {
    LowLinear(s, t);
  }

  lemma HighAt(s: bv32, t: bv32)
    ensures HIGH(s ^ t) == HIGH(s) ^ HIGH(t)
  {
    HighLinear(s, t);
  }

  lemma SumIs(f: Fn, g: Fn, x: bv32)
    ensures Sum(f, g)(x) == f(x) ^ g(x)
  {
  }

  lemma Combine(a: bv32, b: bv32, c: bv32, d: bv32, e: bv32, f: bv32)
    requires a == b ^ c && d == e ^ f
    ensures a ^ d == (b ^ e) ^ (c ^ f)
  {
  }

  lemma SumFor(f: Fn, g: Fn, s: bv32, t: bv32)
    requires f(s ^ t) == f(s) ^ f(t) && g(s ^ t) == g(s) ^ g(t)
    ensures f(s ^ t) ^ g(s ^ t) == (f(s) ^ g(s)) ^ (f(t) ^ g(t))
  {
    Combine(f(s ^ t), f(s), f(t), g(s ^ t), g(s), g(t));
  }

  /** The sum of linear maps is linear. */
  lemma SumAt(f: Fn, g: Fn, s: bv32, t: bv32)
    requires f(s ^ t) == f(s) ^ f(t) && g(s ^ t) == g(s) ^ g(t)
    ensures Sum(f, g)(s ^ t) == Sum(f, g)(s) ^ Sum(f, g)(t)
  {
    SumFor(f, g, s, t);
    SumIs(f, g, s ^ t);
    SumIs(f, g, s);
    SumIs(f, g, t);
  }

  lemma ShiftsLinear(a: bv32, b: bv32)
    ensures Shifted(a ^ b) == Shifted(a) ^ Shifted(b)
    ensures (a ^ b) >> 25 == (a >> 25) ^ (b >> 25)
  {
  }

  lemma Shuffle(p: bv32, q: bv32, u: bv32, v: bv32, s: bv32, t: bv32)
    ensures (p ^ q) ^ (u ^ v) ^ (s ^ t) == (p ^ u ^ s) ^ (q ^ v ^ t)
  {
  }

  lemma StepLinearFor(mix: bv32 -> bv32, a: bv32, b: bv32, u: bv32, v: bv32)
    requires mix((a >> 25) ^ (b >> 25)) == mix(a >> 25) ^ mix(b >> 25)
    ensures StepWith(mix, a ^ b, u ^ v) == StepWith(mix, a, u) ^ StepWith(mix, b, v)
  {
    ShiftsLinear(a, b);
    Shuffle(Shifted(a), Shifted(b), u, v, mix(a >> 25), mix(b >> 25));
  }

  lemma StepInvertible(c: bv32, v: bv32)
    requires c < REGISTER && v < 32
    ensures STEP(c, v) < REGISTER
    ensures STEP(c, 0) == 0 ==> c == 0
  {
  }

  lemma StepShifts(c: bv32, v: bv32)
    requires c < 0x200_0000
    ensures STEP(c, v) == (c << 5) ^ v
  {
  }

  lemma XorLaws(x: bv32, y: bv32)
    ensures x ^ x == 0 && x ^ 0 == x && 0 ^ x == x && x ^ (x ^ y) == y
    ensures x < REGISTER && y < REGISTER ==> x ^ y < REGISTER
    ensures x < 32 && y < 32 ==> x ^ y < 32
  {
  }

  lemma XorIs(x: bv32, y: bv32)
    ensures XOR(x, y) == x ^ y
  {
  }

  lemma XorUnit(x: bv32)
    ensures XOR(x, x) == 0 && XOR(x, 0) == x && XOR(0, x) == x
  {
    XorIs(x, x);
    XorIs(x, 0);
    XorIs(0, x);
  }

  lemma XorTwice(x: bv32, y: bv32)
    ensures XOR(x, XOR(x, y)) == y
  {
    XorLaws(x, y);
    XorIs(x, y);
    XorIs(x, x ^ y);
  }

  lemma XorFits(x: bv32, y: bv32)
    ensures x < REGISTER && y < REGISTER ==> XOR(x, y) < REGISTER
    ensures x < 32 && y < 32 ==> XOR(x, y) < 32
  {
    XorIs(x, y);
    XorLaws(x, y);
  }

  lemma IsXorLike()
    ensures XorLike(XOR)
  {
    forall x: bv32, y: bv32 {:trigger At(x, y)}
      ensures XOR(x, x) == 0 && XOR(x, 0) == x && XOR(0, x) == x && XOR(x, XOR(x, y)) == y
      ensures x < REGISTER && y < REGISTER ==> XOR(x, y) < REGISTER
      ensures x < 32 && y < 32 ==> XOR(x, y) < 32
    {
      XorUnit(x);
      XorTwice(x, y);
      XorFits(x, y);
    }
  }

  lemma MixAt(s: bv32, t: bv32)
    ensures MIX(s ^ t) == MIX(s) ^ MIX(t)
  {
    LowAt(s, t);
    HighAt(s, t);
    SumAt(LOW, HIGH, s, t);
  }

  lemma StepOfAt(mix: bv32 -> bv32, a: bv32, b: bv32, u: bv32, v: bv32)
    requires mix((a >> 25) ^ (b >> 25)) == mix(a >> 25) ^ mix(b >> 25)
    ensures StepOf(mix)(XOR(a, b), XOR(u, v)) == XOR(StepOf(mix)(a, u), StepOf(mix)(b, v))
  {
    XorIs(a, b);
    XorIs(u, v);
    XorIs(StepWith(mix, a, u), StepWith(mix, b, v));
    StepLinearFor(mix, a, b, u, v);
  }

  ghost predicate LinearMix(mix: bv32 -> bv32) {
    forall s: bv32, t: bv32 :: mix(s ^ t) == mix(s) ^ mix(t)
  }

  lemma MixIsLinear()
    ensures LinearMix(MIX)
  {
    forall s: bv32, t: bv32
      ensures MIX(s ^ t) == MIX(s) ^ MIX(t)
    {
      MixAt(s, t);
    }
  }

  lemma IsLinear(mix: bv32 -> bv32)
    requires LinearMix(mix)
    ensures Linear(StepOf(mix), XOR)
  {
    forall a: bv32, b: bv32, u: bv32, v: bv32
      ensures StepOf(mix)(XOR(a, b), XOR(u, v)) == XOR(StepOf(mix)(a, u), StepOf(mix)(b, v))
    {
      assert mix((a >> 25) ^ (b >> 25)) == mix(a >> 25) ^ mix(b >> 25);
      StepOfAt(mix, a, b, u, v);
    }
  }

  lemma IsInvertible()
    ensures Invertible(STEP) && Shifting(STEP)
  {
    forall c: bv32, v: bv32 | c < REGISTER && v < 32
      ensures STEP(c, v) < REGISTER && (STEP(c, 0) == 0 ==> c == 0)
    {
      StepInvertible(c, v);
    }
    forall c: bv32, v: bv32 | c < 0x200_0000
      ensures STEP(c, v) == (c << 5) ^ v
    {
      StepShifts(c, v);
    }
  }

  /** The step is linear over exclusive or, stays in 30 bits, loses nothing. */
  lemma IsChecksum()
    ensures Checksum(STEP, XOR)
  {
    IsXorLike();
    MixIsLinear();
    IsLinear(MIX);
    IsInvertible();
  }
}
