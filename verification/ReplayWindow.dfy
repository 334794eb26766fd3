/** Single bits of a number under shifts, truncation and union. */
module WordBits {
  import opened Bits

  /** `(b >> d) & 1 == 1`. */
  predicate Bit(b: nat, d: nat) { Shr(b, d) % 2 == 1 }

  /** `a | b`. */
  function Or(a: nat, b: nat): nat
    decreases a + b
  {
    if a == 0 then b
    else if b == 0 then a
    else 2 * Or(a / 2, b / 2) + (if a % 2 == 1 || b % 2 == 1 then 1 else 0)
  }

  lemma {:induction false} BitOfZero(d: nat)
    ensures !Bit(0, d)
  {
    if d > 0 {
      BitOfZero(d - 1);
    }
  }

  lemma {:induction false} BitOr(a: nat, b: nat, d: nat)
    ensures Bit(Or(a, b), d) <==> Bit(a, d) || Bit(b, d)
  {
    BitOfZero(d);
    if d > 0 && a > 0 && b > 0 {
      BitOr(a / 2, b / 2, d - 1);
      assert Or(a, b) / 2 == Or(a / 2, b / 2);
    }
  }

  lemma {:induction false} OrFits(a: nat, b: nat, n: nat)
    requires a < Pow2(n) && b < Pow2(n)
    ensures Or(a, b) < Pow2(n)
  {
    if n > 0 && a > 0 && b > 0 {
      OrFits(a / 2, b / 2, n - 1);
    }
  }

  lemma {:induction false} BitLow(v: nat, n: nat, d: nat)
    ensures Bit(Low(v, n), d) <==> d < n && Bit(v, d)
  {
    if n == 0 {
      BitOfZero(d);
    } else if d > 0 {
      BitLow(v / 2, n - 1, d - 1);
      assert Low(v, n) / 2 == Low(v / 2, n - 1);
    }
  }

  lemma {:induction false} BitShl(v: nat, s: nat, d: nat)
    ensures Bit(Shl(v, s), d) <==> s <= d && Bit(v, d - s)
  {
    if s > 0 && d > 0 {
      BitShl(v, s - 1, d - 1);
      assert Shl(v, s) / 2 == Shl(v, s - 1);
    }
  }

  lemma BitOne(d: nat)
    ensures Bit(1, d) <==> d == 0
  {
    if d > 0 {
      BitOfZero(d - 1);
    }
  }
}

/**
 The 64-wide anti-replay window of the push-to-talk frame opener
 (Core/Media/PTTSessionCrypto.swift), as a value: a 64-bit bitmap that stands for the
 whole set of counters accepted so far.
 */
module ReplayWindow {
  import opened Bits
  import opened WordBits

  const WINDOW: nat := 64

  const MAX: nat := 0xffff_ffff_ffff_ffff

  type Counter = c: nat | c <= MAX

  datatype Window = Window(seenAny: bool, highest: Counter, bitmap: nat)

  const Empty := Window(false, 0, 0)

  /** `b << d` on a 64-bit word. */
  function ShiftLeft(b: nat, d: nat): (r: nat)
    ensures r <= MAX
  {
    MaxIs();
    Low(Shl(b, d), 64)
  }

  lemma FourMore(n: nat)
    ensures Pow2(n + 4) == 16 * Pow2(n)
  {
    assert Pow2(n + 1) == 2 * Pow2(n) && Pow2(n + 2) == 2 * Pow2(n + 1) && Pow2(n + 3) == 2 * Pow2(n + 2);
  }

  lemma SixteenMore(n: nat)
    ensures Pow2(n + 16) == 0x1_0000 * Pow2(n)
  {
    FourMore(n);
    FourMore(n + 4);
    FourMore(n + 8);
    FourMore(n + 12);
  }

  lemma SixtyFourMore(n: nat)
    ensures Pow2(n + 64) == 0x1_0000_0000_0000_0000 * Pow2(n)
  {
    SixteenMore(n);
    SixteenMore(n + 16);
    SixteenMore(n + 32);
    SixteenMore(n + 48);
  }

  lemma MaxIs()
    ensures Pow2(64) == MAX + 1
  {
    SixtyFourMore(0);
  }

  /** A union of 64-bit words is one. */
  lemma UnionFits(a: nat, b: nat)
    requires a <= MAX && b <= MAX
    ensures Or(a, b) <= MAX
  {
    MaxIs();
    OrFits(a, b, 64);
  }

  predicate Replayed(w: Window, counter: Counter) {
    if !w.seenAny || counter > w.highest then false
    else
      var diff := w.highest - counter;
      diff >= WINDOW || Bit(w.bitmap, diff)
  }

  function Commit(w: Window, counter: Counter): Window {
    if !w.seenAny then Window(true, counter, 1)
    else if counter > w.highest then
      var shift := counter - w.highest;
      Window(true, counter, Or(if shift >= WINDOW then 0 else ShiftLeft(w.bitmap, shift), 1))
    else
      w.(bitmap := Or(w.bitmap, ShiftLeft(1, w.highest - counter)))
  }

  // ----- What the window stands for -----

  /** A counter may be accepted: not accepted before, and under 64 behind every accepted one. */
  ghost predicate Fresh(accepted: set<Counter>, counter: Counter) {
    counter !in accepted && forall a :: a in accepted ==> a - counter < 64
  }

  ghost predicate Represents(w: Window, accepted: set<Counter>) {
    && w.bitmap <= MAX
    && (w.seenAny <==> accepted != {})
    && (w.seenAny ==>
          && w.highest in accepted
          && (forall a :: a in accepted ==> a <= w.highest)
          && Marks(w.bitmap, w.highest, accepted))
  }

  /** Within the window, each bit says whether its counter was accepted. */
  ghost predicate Marks(bitmap: nat, highest: Counter, accepted: set<Counter>) {
    forall d: nat :: d < WINDOW && d <= highest ==> (Bit(bitmap, d) <==> highest - d in accepted)
  }

  /** The bitmap test answers the question about the whole set. */
  lemma ReplayCheckExact(w: Window, accepted: set<Counter>, counter: Counter)
    requires Represents(w, accepted)
    ensures Replayed(w, counter) <==> !Fresh(accepted, counter)
  {
    if w.seenAny && counter <= w.highest {
      var d := w.highest - counter;
      assert d < WINDOW ==> (Bit(w.bitmap, d) <==> w.highest - d in accepted);
    }
  }

  lemma CommitFirst(counter: Counter)
    ensures Represents(Window(true, counter, 1), {counter})
  {
    forall d: nat | d < WINDOW && d <= counter
      ensures Bit(1, d) <==> counter - d in {counter}
    {
      BitOne(d);
    }
  }

  lemma CommitNewer(w: Window, accepted: set<Counter>, counter: Counter)
    requires Represents(w, accepted) && w.seenAny && counter > w.highest
    ensures Represents(Commit(w, counter), accepted + {counter})
  {
    var w' := Commit(w, counter);
    var shift := counter - w.highest;
    var moved := if shift >= WINDOW then 0 else ShiftLeft(w.bitmap, shift);
    UnionFits(moved, 1);
    forall d: nat | d < WINDOW && d <= counter
      ensures Bit(w'.bitmap, d) <==> counter - d in accepted + {counter}
    {
      BitOr(moved, 1, d);
      BitOne(d);
      BitOfZero(d);
      MovedBit(w.bitmap, shift, d);
      if shift <= d {
        assert counter - d == w.highest - (d - shift);
      }
    }
  }

  lemma SetBit(b: nat, k: nat, d: nat)
    requires d < WINDOW
    ensures Bit(Or(b, ShiftLeft(1, k)), d) <==> d == k || Bit(b, d)
  {
    BitOr(b, ShiftLeft(1, k), d);
    MovedBit(1, k, d);
    if k <= d {
      BitOne(d - k);
    }
  }

  lemma OlderMarks(bitmap: nat, marked: nat, highest: Counter, accepted: set<Counter>, counter: Counter)
    requires Marks(bitmap, highest, accepted) && counter <= highest
    requires marked == Or(bitmap, ShiftLeft(1, highest - counter))
    ensures Marks(marked, highest, accepted + {counter})
  {
    forall d: nat | d < WINDOW && d <= highest
      ensures Bit(marked, d) <==> highest - d in accepted + {counter}
    {
      SetBit(bitmap, highest - counter, d);
      assert Bit(bitmap, d) <==> highest - d in accepted;
    }
  }

  lemma OlderIs(w: Window, counter: Counter)
    requires w.seenAny && counter <= w.highest && w.bitmap <= MAX
    ensures var w' := Commit(w, counter);
      && w'.seenAny && w'.highest == w.highest && w'.bitmap <= MAX
      && w'.bitmap == Or(w.bitmap, ShiftLeft(1, w.highest - counter))
  {
    UnionFits(w.bitmap, ShiftLeft(1, w.highest - counter));
  }

  lemma CommitOlder(w: Window, accepted: set<Counter>, counter: Counter)
    requires Represents(w, accepted) && w.seenAny && counter <= w.highest
    ensures Represents(Commit(w, counter), accepted + {counter})
  {
    OlderIs(w, counter);
    OlderMarks(w.bitmap, Commit(w, counter).bitmap, w.highest, accepted, counter);
  }

  /** Committing a counter that passed the check adds it to what the window stands for. */
  lemma CommitRepresents(w: Window, accepted: set<Counter>, counter: Counter)
    requires Represents(w, accepted)
    ensures Represents(Commit(w, counter), accepted + {counter})
  {
    if !w.seenAny {
      CommitFirst(counter);
      assert accepted + {counter} == {counter};
    } else if counter > w.highest {
      CommitNewer(w, accepted, counter);
    } else {
      CommitOlder(w, accepted, counter);
    }
  }

  lemma EmptyRepresents()
    ensures Represents(Empty, {})
  {
  }

  lemma MovedBit(b: nat, s: nat, d: nat)
    requires d < WINDOW
    ensures Bit(ShiftLeft(b, s), d) <==> s <= d && Bit(b, d - s)
  {
    BitLow(Shl(b, s), 64, d);
    BitShl(b, s, d);
  }
}
