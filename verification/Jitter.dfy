/** The per-link jitter buffer of push-to-talk playout (Core/Media/PTTPlayer.swift). */
module Jitter {
  import opened Wrappers

  type Pcm = seq<int>

  type Frame = (nat, Pcm)

  const CAPACITY: nat := 8

  datatype Pop = Play(pcm: Pcm) | Gap | Empty

  datatype Buffer = Buffer(lastPlayed: Option<nat>, frames: map<nat, Pcm>)

  const Fresh := Buffer(None, map[])

  ghost function Least(s: set<nat>): (r: nat)
    requires s != {}
    ensures r in s && forall x :: x in s ==> r <= x
  {
    var x :| x in s;
    if s == {x} then x
    else
      assert s == {x} + (s - {x});
      var y := Least(s - {x});
      if x <= y then x else y
  }

  /** Drop the oldest frames beyond the cap. */
  ghost function Trim(frames: map<nat, Pcm>): (r: map<nat, Pcm>)
    ensures |r| <= CAPACITY && r.Keys <= frames.Keys && forall k :: k in r ==> r[k] == frames[k]
    decreases |frames|
  {
    if |frames| <= CAPACITY then frames
    else
      Shrinks(frames, Least(frames.Keys));
      Trim(frames - {Least(frames.Keys)})
  }

  lemma Shrinks(frames: map<nat, Pcm>, k: nat)
    requires k in frames
    ensures |frames - {k}| == |frames| - 1
  {
    assert (frames - {k}).Keys == frames.Keys - {k};
    assert |frames.Keys| == |frames| && |(frames - {k}).Keys| == |frames - {k}|;
  }

  predicate Late(b: Buffer, seq_: nat) {
    b.lastPlayed.Some? && seq_ <= b.lastPlayed.value
  }

  ghost function Pushed(b: Buffer, seq_: nat, pcm: Pcm): (Buffer, bool) {
    if Late(b, seq_) || seq_ in b.frames then (b, false)
    else (b.(frames := Trim(b.frames[seq_ := pcm])), true)
  }

  function Beyond(frames: map<nat, Pcm>, e: nat): map<nat, Pcm> {
    map k | k in frames && k > e :: frames[k]
  }

  function Popped(b: Buffer, e: nat): (Buffer, Pop) {
    var kept := Beyond(b.frames, e);
    var last := if b.lastPlayed.Some? && b.lastPlayed.value > e then b.lastPlayed.value else e;
    (Buffer(Some(last), kept),
     if e in b.frames then Play(b.frames[e]) else if kept == map[] then Empty else Gap)
  }

  /** The frames the gate has not passed. */
  function Purge(frames: map<nat, Pcm>, e: nat): map<nat, Pcm> {
    map k | k in frames && !(k < e) :: frames[k]
  }

  lemma PurgeIsBeyond(frames: map<nat, Pcm>, e: nat)
    ensures Purge(frames - {e}, e) == Beyond(frames, e)
  {
  }

  function Flushed(b: Buffer): Buffer { b.(frames := map[]) }

  /** Never over the cap, and nothing held that the playout has already passed. */
  ghost predicate Valid(b: Buffer) {
    |b.frames| <= 8 && forall k :: k in b.frames ==> !Late(b, k)
  }

  // ----- The buffer as the source keeps it -----

  class PTTJitterBuffer {
    var lastPlayed: Option<nat>
    var frames: map<nat, Pcm>

    ghost function View(): Buffer
      reads this
    {
      Buffer(lastPlayed, frames)
    }

    constructor ()
      ensures View() == Fresh
    {
      lastPlayed, frames := None, map[];
    }

    method Push(seq_: nat, pcm: Pcm) returns (kept: bool)
      requires Valid(View())
      modifies this
      ensures Valid(View()) && (View(), kept) == Pushed(old(View()), seq_, pcm)
    {
      if lastPlayed.Some? && seq_ <= lastPlayed.value {
        return false;
      }
      if seq_ in frames {
        return false;
      }
      frames := frames[seq_ := pcm];
      while |frames| > CAPACITY
        invariant Trim(frames) == Trim(old(frames)[seq_ := pcm])
        invariant frames.Keys <= old(frames).Keys + {seq_}
        invariant lastPlayed == old(lastPlayed)
        decreases |frames|
      {
        var oldest := Oldest(frames.Keys);
        Shrinks(frames, oldest);
        frames := frames - {oldest};
      }
      return true;
    }

    method PopSlot(expected: nat) returns (r: Pop)
      requires Valid(View())
      modifies this
      ensures Valid(View()) && (View(), r) == Popped(old(View()), expected)
    {
      lastPlayed := Some(if lastPlayed.Some? && lastPlayed.value > expected then lastPlayed.value else expected);
      var pcm := if expected in frames then Some(frames[expected]) else None;
      frames := frames - {expected};
      PurgeIsBeyond(old(frames), expected);
      frames := Purge(frames, expected);
      BeyondSmaller(old(frames), expected);
      if pcm.Some? {
        return Play(pcm.value);
      }
      return if frames == map[] then Empty else Gap;
    }

    method Flush()
      modifies this
      ensures View() == Flushed(old(View()))
    {
      frames := map[];
    }
  }

  method Oldest(keys: set<nat>) returns (r: nat)
    requires keys != {}
    ensures r == Least(keys)
  {
    var rest := keys;
    r :| r in rest;
    rest := rest - {r};
    while rest != {}
      invariant rest <= keys && r in keys
      invariant forall k :: k in keys && k !in rest ==> r <= k
    {
      var k :| k in rest;
      rest := rest - {k};
      if k < r {
        r := k;
      }
    }
  }

  lemma BeyondSmaller(frames: map<nat, Pcm>, e: nat)
    ensures |Beyond(frames, e)| <= |frames|
  {
    SubsetSize(Beyond(frames, e).Keys, frames.Keys);
    assert |Beyond(frames, e).Keys| == |Beyond(frames, e)| && |frames.Keys| == |frames|;
  }

  lemma {:induction false} SubsetSize<T>(a: set<T>, b: set<T>)
    requires a <= b
    ensures |a| <= |b|
  {
    if a != {} {
      var x :| x in a;
      SubsetSize(a - {x}, b - {x});
    }
  }
}
