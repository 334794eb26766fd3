/**
 Regrouping a byte stream between bit widths (Core/Nostr/Bech32.swift, `convertBits`).
 Bytes and 5-bit symbols are naturals.
 */
module Bech32 {
  import opened Wrappers
  import opened Bits

  // ----- Regrouping bits -----

  /** What `convertBits` computes: the same bits in groups of `to`. */
  function Regroup(data: seq<nat>, from: nat, to: nat, pad: bool): Option<seq<nat>>
    requires to > 0
  {
    if !Fits(data, from) then None
    else
      var (groups, rest) := Groups(Flatten(data, from), to);
      Finish(groups, rest, from, to, pad)
  }

  /** A short remainder is completed with zeros, or must be zeros and under one input group. */
  function Finish(groups: seq<nat>, rest: seq<bool>, from: nat, to: nat, pad: bool): Option<seq<nat>>
    requires |rest| < to
  {
    if pad then Some(if rest == [] then groups else groups + [FromBits(rest + Zeros(to - |rest|))])
    else if |rest| >= from || !AllZero(rest) then None
    else Some(groups)
  }

  lemma ShlZeroBits(acc: nat, bits: nat, to: nat)
    requires bits <= to
    ensures ToBits(Shl(acc, to - bits), to) == ToBits(acc, bits) + Zeros(to - bits)
  {
    AppendBits(acc, bits, 0, to - bits);
    ZeroBits(to - bits);
  }

  lemma {:induction false} ZeroBits(w: nat)
    ensures ToBits(0, w) == Zeros(w) && FromBits(Zeros(w)) == 0
  {
    if w > 0 {
      ZeroBits(w - 1);
      assert Zeros(w)[..w - 1] == Zeros(w - 1);
    }
  }

  lemma LowIsFromBits(v: nat, w: nat)
    ensures Low(v, w) == FromBits(ToBits(v, w))
  {
    MaskedBits(v, w, w);
    FromToBits(Low(v, w), w);
  }

  lemma AllZeroIsZeros(b: seq<bool>)
    ensures AllZero(b) <==> FromBits(b + Zeros(0)) == 0
    ensures AllZero(b) <==> b == Zeros(|b|)
  {
    assert b + Zeros(0) == b;
    if AllZero(b) {
      assert b == Zeros(|b|);
      ZeroBits(|b|);
    } else if FromBits(b) == 0 {
      ToFromBits(b);
      ZeroBits(|b|);
    }
  }

  /** `acc = ((acc << from) | v) & maxAcc; bits += from`. */
  lemma ShiftIn(read: seq<nat>, out: seq<nat>, acc: nat, bits: nat, v: nat, from: nat, to: nat)
    requires bits < to && v < Pow2(from)
    requires Flatten(read, from) == Flatten(out, to) + ToBits(acc, bits)
    ensures Flatten(read + [v], from) == Flatten(out, to) + ToBits(Low(Shl(acc, from) + v, from + to - 1), bits + from)
  {
    AppendBits(acc, bits, v, from);
    MaskedBits(Shl(acc, from) + v, bits + from, from + to - 1);
    FlattenSnoc(read, v, from);
  }

  /** `bits -= to; out.append((acc >> bits) & maxv)`. */
  lemma Emit(stream: seq<bool>, out: seq<nat>, acc: nat, bits: nat, to: nat)
    requires stream == Flatten(out, to) + ToBits(acc, to + bits)
    ensures stream == Flatten(out + [Low(Shr(acc, bits), to)], to) + ToBits(acc, bits)
  {
    SplitBits(acc, to, bits);
    MaskedBits(Shr(acc, bits), to, to);
    FlattenSnoc(out, Low(Shr(acc, bits), to), to);
  }

  /** What the loop leaves behind is the regrouping. */
  lemma Close(data: seq<nat>, out: seq<nat>, rest: seq<bool>, from: nat, to: nat, pad: bool)
    requires |rest| < to && Fits(data, from) && Fits(out, to)
    requires Flatten(data, from) == Flatten(out, to) + rest
    ensures Regroup(data, from, to, pad) == Finish(out, rest, from, to, pad)
  {
    GroupsAre(Flatten(data, from), to, out, rest);
  }

  lemma FinishIs(out: seq<nat>, acc: nat, bits: nat, from: nat, to: nat, pad: bool)
    requires bits < to
    ensures var last := Low(Shl(acc, to - bits), to);
      Finish(out, ToBits(acc, bits), from, to, pad) ==
        if pad then Some(if bits > 0 then out + [last] else out)
        else if bits >= from || last != 0 then None else Some(out)
  {
    LastGroup(acc, bits, to);
    PaddedZero(ToBits(acc, bits), to - bits);
  }

  lemma LastGroup(acc: nat, bits: nat, to: nat)
    requires bits <= to
    ensures Low(Shl(acc, to - bits), to) == FromBits(ToBits(acc, bits) + Zeros(to - bits))
  {
    ShlZeroBits(acc, bits, to);
    LowIsFromBits(Shl(acc, to - bits), to);
  }

  /** The inner loop: whole groups leave the accumulator from the left. */
  method Drain(ghost stream: seq<bool>, whole: seq<nat>, acc: nat, held: nat, to: nat) returns (out: seq<nat>, bits: nat)
    requires to > 0 && Fits(whole, to) && stream == Flatten(whole, to) + ToBits(acc, held)
    ensures bits < to && Fits(out, to) && stream == Flatten(out, to) + ToBits(acc, bits)
  {
    out, bits := whole, held;
    while bits >= to
      invariant Fits(out, to)
      invariant stream == Flatten(out, to) + ToBits(acc, bits)
    {
      bits := bits - to;
      Emit(stream, out, acc, bits, to);
      out := out + [Low(Shr(acc, bits), to)];
    }
  }

  /** The source's accumulator loop, with its shifts and masks written out. */
  method ConvertBits(data: seq<nat>, from: nat, to: nat, pad: bool) returns (r: Option<seq<nat>>)
    requires from > 0 && to > 0
    ensures r == Regroup(data, from, to, pad)
  {
    var acc: nat, bits: nat := 0, 0;
    var out: seq<nat> := [];
    for k := 0 to |data|
      invariant bits < to && Fits(data[..k], from) && Fits(out, to)
      invariant Flatten(data[..k], from) == Flatten(out, to) + ToBits(acc, bits)
    {
      var v := data[k];
      if v >= Pow2(from) {
        return None;
      }
      ShiftIn(data[..k], out, acc, bits, v, from, to);
      assert data[..k + 1] == data[..k] + [v];
      ghost var stream := Flatten(data[..k + 1], from);
      acc := Low(Shl(acc, from) + v, from + to - 1);
      bits := bits + from;
      out, bits := Drain(stream, out, acc, bits, to);
    }
    assert data[..|data|] == data;
    var last := Low(Shl(acc, to - bits), to);
    Close(data, out, ToBits(acc, bits), from, to, pad);
    FinishIs(out, acc, bits, from, to, pad);
    if pad {
      if bits > 0 {
        out := out + [last];
      }
    } else if bits >= from || last != 0 {
      return None;
    }
    return Some(out);
  }

  lemma PaddedZero(b: seq<bool>, n: nat)
    ensures FromBits(b + Zeros(n)) == 0 <==> AllZero(b)
  {
    var p := b + Zeros(n);
    AllZeroIsZeros(p);
    assert p + Zeros(0) == p;
    assert AllZero(p) <==> AllZero(b) by {
      assert forall i :: 0 <= i < |b| ==> p[i] == b[i];
    }
  }

  /** Eight-to-five and back is the identity on every byte string. */
  lemma BytesRoundTrip(bytes: seq<nat>)
    requires Fits(bytes, 8)
    ensures var five := Regroup(bytes, 8, 5, true);
      five.Some? && Fits(five.value, 5) && Regroup(five.value, 5, 8, false) == Some(bytes)
  {
    var bits := Flatten(bytes, 8);
    var (groups, rest) := Groups(bits, 5);
    GroupsCover(bits, 5);
    var five := Regroup(bytes, 8, 5, true).value;
    var zeros := Zeros(if rest == [] then 0 else 5 - |rest|);
    assert Fits(five, 5) && Flatten(five, 5) == bits + zeros by {
      if rest == [] {
        assert bits + zeros == bits == Flatten(groups, 5);
      } else {
        ToFromBits(rest + zeros);
        FlattenSnoc(groups, FromBits(rest + zeros), 5);
        assert bits + zeros == Flatten(groups, 5) + (rest + zeros);
      }
    }
    GroupsAre(Flatten(five, 5), 8, bytes, zeros);
  }

  lemma TailLength(five: seq<nat>, groups: seq<nat>, rest: seq<bool>, tail: seq<bool>)
    requires |rest| < 5 && |tail| < 5 && Flatten(five, 5) == Flatten(groups, 5) + (rest + tail)
    ensures rest == [] ==> tail == []
    ensures rest != [] ==> |tail| == 5 - |rest|
  {
    FlattenLength(five, 5);
    FlattenLength(groups, 5);
    assert 5 * |five| == 5 * |groups| + |rest| + |tail|;
  }

  /** Bits cut into fives again, where a short tail is completed with zeros. */
  lemma TailCompleted(five: seq<nat>, groups: seq<nat>, rest: seq<bool>, tail: seq<bool>)
    requires Fits(five, 5) && Fits(groups, 5) && |rest| < 5 && |tail| < 5 && tail == Zeros(|tail|)
    requires Flatten(five, 5) == Flatten(groups, 5) + (rest + tail)
    ensures five == if rest == [] then groups else groups + [FromBits(rest + Zeros(5 - |rest|))]
  {
    TailLength(five, groups, rest, tail);
    assert Flatten(five, 5) + [] == Flatten(five, 5);
    if rest == [] {
      GroupsUnique(five, [], groups, [], 5);
    } else {
      LastFive(groups, rest + tail);
      GroupsUnique(five, [], groups + [FromBits(rest + tail)], [], 5);
    }
  }

  lemma LastFive(groups: seq<nat>, last: seq<bool>)
    requires Fits(groups, 5) && |last| == 5
    ensures Fits(groups + [FromBits(last)], 5)
    ensures Flatten(groups + [FromBits(last)], 5) + [] == Flatten(groups, 5) + last
  {
    ToFromBits(last);
    FlattenSnoc(groups, FromBits(last), 5);
  }

  /** Five-to-eight accepts only what eight-to-five emits. */
  lemma SymbolsRoundTrip(five: seq<nat>)
    requires Regroup(five, 5, 8, false).Some?
    ensures var bytes := Regroup(five, 5, 8, false).value;
      Fits(bytes, 8) && Regroup(bytes, 8, 5, true) == Some(five)
  {
    var (bytes, tail) := Groups(Flatten(five, 5), 8);
    GroupsCover(Flatten(five, 5), 8);
    var (groups, rest) := Groups(Flatten(bytes, 8), 5);
    GroupsCover(Flatten(bytes, 8), 5);
    AllZeroIsZeros(tail);
    assert Flatten(groups, 5) + rest + tail == Flatten(groups, 5) + (rest + tail);
    TailCompleted(five, groups, rest, tail);
  }
}
