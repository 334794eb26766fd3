/** What becomes of every pushed frame, over any pushes and any playout clock. */
module Playout {
  import opened Jitter

  datatype Event = Push(seq_: nat, pcm: Pcm) | Tick(expected: nat) | Flush

  /** Where each frame ended up. */
  datatype Log = Log(
    played: seq<Frame>,
    refused: multiset<Frame>,
    evicted: multiset<Frame>,
    purged: multiset<Frame>,
    flushed: multiset<Frame>)

  datatype State = State(buffer: Buffer, log: Log)

  const Start := State(Fresh, Log([], multiset{}, multiset{}, multiset{}, multiset{}))

  ghost function ItemSet(frames: map<nat, Pcm>): (r: set<Frame>)
    ensures forall f: Frame :: f in r <==> f.0 in frames && frames[f.0] == f.1
  {
    set k | k in frames :: (k, frames[k])
  }

  ghost function Items(frames: map<nat, Pcm>): multiset<Frame> {
    multiset(ItemSet(frames))
  }

  ghost function Passed(frames: map<nat, Pcm>, e: nat): map<nat, Pcm> {
    map k | k in frames && k < e :: frames[k]
  }

  ghost function Step(s: State, ev: Event): State {
    var b, l := s.buffer, s.log;
    match ev
    case Push(n, pcm) =>
      var (b', kept) := Pushed(b, n, pcm);
      if !kept then s.(log := l.(refused := l.refused + multiset{(n, pcm)}))
      else State(b', l.(evicted := l.evicted + (Items(b.frames[n := pcm]) - Items(b'.frames))))
    case Tick(e) =>
      var (b', r) := Popped(b, e);
      var l' := l.(purged := l.purged + Items(Passed(b.frames, e)));
      State(b', if r.Play? then l'.(played := l.played + [(e, r.pcm)]) else l')
    case Flush =>
      State(Flushed(b), l.(flushed := l.flushed + Items(b.frames)))
  }

  ghost function Run(events: seq<Event>): State {
    if events == [] then Start else Step(Run(events[..|events| - 1]), events[|events| - 1])
  }

  ghost function AllPushed(events: seq<Event>): multiset<Frame> {
    if events == [] then multiset{}
    else
      var e := events[|events| - 1];
      AllPushed(events[..|events| - 1]) + (if e.Push? then multiset{(e.seq_, e.pcm)} else multiset{})
  }

  ghost function Accounted(s: State): multiset<Frame> {
    s.log.refused + multiset(s.log.played) + s.log.evicted + s.log.purged + s.log.flushed + Items(s.buffer.frames)
  }

  // ----- Frames as items -----

  lemma Disjoint(a: set<Frame>, b: set<Frame>)
    requires a !! b
    ensures multiset(a + b) == multiset(a) + multiset(b)
  {
  }

  lemma ItemsInsert(frames: map<nat, Pcm>, k: nat, pcm: Pcm)
    requires k !in frames
    ensures Items(frames[k := pcm]) == Items(frames) + multiset{(k, pcm)}
  {
    Disjoint(ItemSet(frames), {(k, pcm)});
    assert ItemSet(frames[k := pcm]) == ItemSet(frames) + {(k, pcm)};
  }

  lemma ItemsSub(a: map<nat, Pcm>, b: map<nat, Pcm>)
    requires a.Keys <= b.Keys && forall k :: k in a ==> a[k] == b[k]
    ensures Items(a) <= Items(b)
  {
    assert ItemSet(a) <= ItemSet(b);
  }

  lemma ItemsSplit(frames: map<nat, Pcm>, e: nat)
    ensures Items(frames) == Items(Beyond(frames, e)) + Items(Passed(frames, e))
      + (if e in frames then multiset{(e, frames[e])} else multiset{})
  {
    var hi, lo := ItemSet(Beyond(frames, e)), ItemSet(Passed(frames, e));
    var mid: set<Frame> := if e in frames then {(e, frames[e])} else {};
    Disjoint(hi, lo);
    Disjoint(hi + lo, mid);
    assert ItemSet(frames) == hi + lo + mid;
    assert multiset(mid) == if e in frames then multiset{(e, frames[e])} else multiset{};
  }

  // ----- Every frame is accounted for -----

  lemma StepAccounts(s: State, ev: Event)
    ensures Accounted(Step(s, ev)) == Accounted(s) + (if ev.Push? then multiset{(ev.seq_, ev.pcm)} else multiset{})
  {
    var b := s.buffer;
    match ev
    case Push(n, pcm) =>
      if Pushed(b, n, pcm).1 {
        ItemsInsert(b.frames, n, pcm);
        ItemsSub(Trim(b.frames[n := pcm]), b.frames[n := pcm]);
      }
    case Tick(e) =>
      TickAccounts(s, e);
    case Flush =>
      assert ItemSet(map[]) == {};
  }

  lemma TickAccounts(s: State, e: nat)
    ensures Accounted(Step(s, Tick(e))) == Accounted(s)
  {
    ItemsSplit(s.buffer.frames, e);
  }

  /** Played, refused, evicted, purged, flushed or still held: nothing else happens to a frame. */
  lemma {:induction false} EveryFrameAccountedFor(events: seq<Event>)
    ensures AllPushed(events) == Accounted(Run(events))
  {
    if events == [] {
      assert ItemSet(map[]) == {};
    } else {
      var n := |events| - 1;
      EveryFrameAccountedFor(events[..n]);
      StepAccounts(Run(events[..n]), events[n]);
    }
  }

  // ----- Order -----

  ghost predicate Increasing(played: seq<Frame>) {
    forall i, j :: 0 <= i < j < |played| ==> played[i].0 < played[j].0
  }

  ghost predicate Inv(s: State) {
    && Valid(s.buffer)
    && Increasing(s.log.played)
    && forall i :: 0 <= i < |s.log.played| ==> Late(s.buffer, s.log.played[i].0)
  }

  lemma StepOrdered(s: State, ev: Event)
    requires Inv(s)
    ensures Inv(Step(s, ev))
  {
    if ev.Tick? {
      BeyondSmaller(s.buffer.frames, ev.expected);
    }
  }

  /**
   Under any clock, increasing or not: frames play in strictly increasing sequence, so
   each at most once, and the buffer stays within its cap and ahead of the playout.
   */
  lemma {:induction false} PlaysInOrder(events: seq<Event>)
    ensures Inv(Run(events))
  {
    if events != [] {
      var n := |events| - 1;
      PlaysInOrder(events[..n]);
      StepOrdered(Run(events[..n]), events[n]);
    }
  }

  /** What is heard was pushed, with the same samples. */
  lemma PlayedWasPushed(events: seq<Event>, i: nat)
    requires i < |Run(events).log.played|
    ensures Run(events).log.played[i] in AllPushed(events)
  {
    EveryFrameAccountedFor(events);
    var played := Run(events).log.played;
    assert played[i] in multiset(played);
  }

  // ----- Eviction -----

  /** The cap evicts the oldest: everything kept is newer than everything dropped. */
  lemma {:induction false} TrimKeepsNewest(frames: map<nat, Pcm>, gone: nat, kept: nat)
    requires gone in frames && gone !in Trim(frames) && kept in Trim(frames)
    ensures gone < kept
    decreases |frames|
  {
    if |frames| > CAPACITY {
      var k := Least(frames.Keys);
      Shrinks(frames, k);
      if gone != k {
        TrimKeepsNewest(frames - {k}, gone, kept);
      }
    }
  }

  /** A frame that finds the buffer full of newer ones is reported kept and is gone at once. */
  lemma KeptButGone(b: Buffer, n: nat, pcm: Pcm)
    requires Valid(b) && !Late(b, n) && n !in b.frames
    ensures Pushed(b, n, pcm).1
    ensures n !in Pushed(b, n, pcm).0.frames <==> |b.frames| == 8 && forall k :: k in b.frames ==> n < k
  {
    var frames := b.frames[n := pcm];
    assert frames.Keys == b.frames.Keys + {n};
    assert |frames| == |frames.Keys| && |b.frames| == |b.frames.Keys|;
    if |frames| > CAPACITY {
      var k := Least(frames.Keys);
      Shrinks(frames, k);
      assert Trim(frames) == frames - {k};
    }
  }
}
