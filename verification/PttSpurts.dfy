/** A talk spurt from its first frame to its last, on any state the player can be in between spurts. */
module PttSpurts {
  import opened Wrappers
  import opened Jitter
  import opened PttPlayer

  // ----- One push, one slot -----

  /** A frame is kept exactly if its slot has not passed and it is not held yet; below eight frames nothing else happens. */
  lemma PushExactly(b: Buffer, n: nat, pcm: Pcm)
    ensures var (b', kept) := Pushed(b, n, pcm);
      && (kept <==> (b.lastPlayed.None? || n > b.lastPlayed.value) && n !in b.frames)
      && b'.lastPlayed == b.lastPlayed && (!kept ==> b' == b)
      && (kept && |b.frames| < 8 ==> b'.frames == b.frames[n := pcm])
  {
    if n !in b.frames {
      assert b.frames[n := pcm].Keys == b.frames.Keys + {n};
      assert |b.frames[n := pcm].Keys| == |b.frames[n := pcm]|;
      assert |b.frames.Keys| == |b.frames|;
    }
  }

  /** A slot plays its frame, is a gap before later frames, or finds nothing; only later frames stay, behind the gate. */
  lemma PopExactly(b: Buffer, e: nat)
    ensures var (b', r) := Popped(b, e);
      && (e in b.frames ==> r == Play(b.frames[e]))
      && (e !in b.frames ==> r == if exists k :: k in b.frames && k > e then Gap else Empty)
      && (forall k :: k in b'.frames <==> k in b.frames && k > e)
      && (forall k :: k in b'.frames ==> b'.frames[k] == b.frames[k])
      && b'.lastPlayed == Some(if b.lastPlayed.Some? && b.lastPlayed.value > e then b.lastPlayed.value else e)
  {
    if k :| k in b.frames && k > e {
      assert k in Beyond(b.frames, e);
    }
  }

  // ----- The frames of a spurt -----

  /** The first `n` frames, numbered from `base`. */
  function Frames(base: nat, pcms: seq<Pcm>, n: nat): map<nat, Pcm>
    requires n <= |pcms|
  {
    if n == 0 then map[] else Frames(base, pcms, n - 1)[base + n - 1 := pcms[n - 1]]
  }

  lemma {:induction false} FramesAre(base: nat, pcms: seq<Pcm>, n: nat)
    requires n <= |pcms|
    ensures |Frames(base, pcms, n)| == n
    ensures forall k :: k in Frames(base, pcms, n) <==> base <= k < base + n
    ensures forall k :: k in Frames(base, pcms, n) ==> Frames(base, pcms, n)[k] == pcms[k - base]
  {
    if n > 0 {
      var front, all := Frames(base, pcms, n - 1), Frames(base, pcms, n);
      FramesAre(base, pcms, n - 1);
      assert all.Keys == front.Keys + {base + n - 1};
      assert |all.Keys| == |all| && |front.Keys| == |front|;
    }
  }

  /** What is heard of the first `j` frames. */
  function Played(link: Link, life: nat, base: nat, pcms: seq<Pcm>, j: nat): (r: seq<Heard>)
    requires j <= |pcms|
    ensures |r| == j
  {
    seq(j, i requires 0 <= i < j => Heard(link, life, base + i, pcms[i]))
  }

  // ----- Between spurts -----

  /** Nothing is claimed, and the link's gate is short of the spurt. */
  ghost predicate Idle(s: State, link: Link, base: nat) {
    && s.player.active.None?
    && (link in s.player.buffers ==> s.player.buffers[link].frames == map[] && !Late(s.player.buffers[link], base))
  }

  /** All frames queued in order. */
  ghost function Queued(s: State, link: Link, base: nat, pcms: seq<Pcm>, n: nat): State
    requires n <= |pcms|
  {
    if n == 0 then s else Step(Queued(s, link, base, pcms, n - 1), Enqueue(link, base + n - 1, pcms[n - 1]))
  }

  /** Names the states at which the law of the clock is used. */
  predicate At(s: State) { true }

  /** One tick of the clock, the engine up. */
  ghost predicate Clock(tick: State -> State) {
    forall s: State {:trigger At(s)} :: tick(s) == Step(s, Tick(true))
  }

  ghost function Ticks(tick: State -> State, s: State, n: nat): State {
    if n == 0 then s else tick(Ticks(tick, s, n - 1))
  }

  /** The link holds the claim and the first `n` frames, and `waited` ticks have passed. */
  ghost predicate Waiting(s0: State, s: State, link: Link, base: nat, pcms: seq<Pcm>, n: nat, waited: nat)
    requires n <= |pcms|
  {
    var p := s.player;
    && p.active == Some(link) && !p.playing && p.prebufferTicks == waited && p.silence == 0
    && link in p.buffers && p.buffers[link].frames == Frames(base, pcms, n) && !Late(p.buffers[link], base)
    && s.heard == s0.heard && s.lives == s0.lives
  }

  lemma FirstQueued(s: State, link: Link, base: nat, pcms: seq<Pcm>)
    requires Idle(s, link, base) && pcms != []
    ensures Waiting(s, Step(s, Enqueue(link, base, pcms[0])), link, base, pcms, 1, 0)
  {
    var b := if link in s.player.buffers then s.player.buffers[link] else Fresh;
    PushExactly(b, base, pcms[0]);
    assert Frames(base, pcms, 0) == map[];
    assert b.frames[base := pcms[0]] == Frames(base, pcms, 1);
  }

  lemma NextQueued(s0: State, s: State, s': State, link: Link, base: nat, pcms: seq<Pcm>, n: nat)
    requires 0 < n <= |pcms| <= 8 && Waiting(s0, s, link, base, pcms, n - 1, 0)
    requires s' == Step(s, Enqueue(link, base + n - 1, pcms[n - 1]))
    ensures Waiting(s0, s', link, base, pcms, n, 0)
  {
    FramesAre(base, pcms, n - 1);
    PushExactly(s.player.buffers[link], base + n - 1, pcms[n - 1]);
  }

  lemma {:induction false} AllQueued(s: State, link: Link, base: nat, pcms: seq<Pcm>, n: nat)
    requires Idle(s, link, base) && 1 <= n <= |pcms| <= 8
    ensures Waiting(s, Queued(s, link, base, pcms, n), link, base, pcms, n, 0)
  {
    if n == 1 {
      FirstQueued(s, link, base, pcms);
      assert Queued(s, link, base, pcms, 0) == s;
    } else {
      AllQueued(s, link, base, pcms, n - 1);
      NextQueued(s, Queued(s, link, base, pcms, n - 1), Queued(s, link, base, pcms, n), link, base, pcms, n);
    }
  }

  // ----- Waiting -----

  lemma WaitingTick(s0: State, s: State, link: Link, base: nat, pcms: seq<Pcm>, waited: nat)
    requires |pcms| < 3 && waited < 5 && Waiting(s0, s, link, base, pcms, |pcms|, waited)
    ensures Waiting(s0, Step(s, Tick(true)), link, base, pcms, |pcms|, waited + 1)
  {
    FramesAre(base, pcms, |pcms|);
  }

  lemma {:induction false} WaitsFive(tick: State -> State, s0: State, s: State, link: Link, base: nat, pcms: seq<Pcm>, n: nat)
    requires Clock(tick) && |pcms| < 3 && n <= 5 && Waiting(s0, s, link, base, pcms, |pcms|, 0)
    ensures Waiting(s0, Ticks(tick, s, n), link, base, pcms, |pcms|, n)
  {
    if n > 0 {
      WaitsFive(tick, s0, s, link, base, pcms, n - 1);
      assert At(Ticks(tick, s, n - 1));
      WaitingTick(s0, Ticks(tick, s, n - 1), link, base, pcms, n - 1);
    }
  }

  // ----- Playing -----

  /** The first `j` frames have been heard, and the clock is at the next, which is held with the rest. */
  ghost predicate Playing(s0: State, s: State, link: Link, base: nat, pcms: seq<Pcm>, j: nat)
    requires j <= |pcms|
  {
    var p := s.player;
    && p.active == Some(link) && p.playing && p.silence == 0 && (j < |pcms| ==> p.expected == base + j)
    && link in p.buffers
    && (forall k :: k in p.buffers[link].frames <==> base + j <= k < base + |pcms|)
    && (forall k :: k in p.buffers[link].frames ==> p.buffers[link].frames[k] == pcms[k - base])
    && s.lives == s0.lives && s.heard == s0.heard + Played(link, s0.Life(link), base, pcms, j)
  }

  lemma SlotPlayed(s0: State, s: State, link: Link, base: nat, pcms: seq<Pcm>, j: nat)
    requires j < |pcms| && base + |pcms| <= WRAP && Playing(s0, s, link, base, pcms, j)
    ensures Playing(s0, PlaySlot(s, link), link, base, pcms, j + 1)
  {
    PopExactly(s.player.buffers[link], base + j);
    assert s.player.buffers[link].frames[base + j] == pcms[j];
    PlayedSnoc(s0.heard, link, s0.Life(link), base, pcms, j);
  }

  lemma PlayedSnoc(before: seq<Heard>, link: Link, life: nat, base: nat, pcms: seq<Pcm>, j: nat)
    requires j < |pcms|
    ensures before + Played(link, life, base, pcms, j + 1)
      == (before + Played(link, life, base, pcms, j)) + [Heard(link, life, base + j, pcms[j])]
  {
  }

  /** The clock starts at the oldest frame once three are held or the sixth tick has come. */
  lemma FirstSlot(s0: State, s: State, link: Link, base: nat, pcms: seq<Pcm>, waited: nat)
    requires 1 <= |pcms| && base + |pcms| <= WRAP && Waiting(s0, s, link, base, pcms, |pcms|, waited)
    requires |pcms| >= 3 || waited == 5
    ensures Playing(s0, Step(s, Tick(true)), link, base, pcms, 1)
  {
    FramesAre(base, pcms, |pcms|);
    var held := s.player.buffers[link].frames;
    assert base in held && Least(held.Keys) == base;
    var s1 := s.(player := s.player.(prebufferTicks := waited + 1, expected := base, playing := true));
    assert Step(s, Tick(true)) == PlaySlot(s1, link);
    assert s0.heard + [] == s0.heard;
    SlotPlayed(s0, s1, link, base, pcms, 0);
  }

  // ----- The whole spurt -----

  /** The ticks before the first frame is heard. */
  function Delay(n: nat): nat { if n >= 3 then 0 else 5 }

  lemma SpurtWaits(tick: State -> State, s0: State, s: State, link: Link, base: nat, pcms: seq<Pcm>, d: nat)
    requires Clock(tick) && 1 <= |pcms| <= 8 && Waiting(s0, s, link, base, pcms, |pcms|, 0) && d == Delay(|pcms|)
    ensures Waiting(s0, Ticks(tick, s, d), link, base, pcms, |pcms|, d)
  {
    if d > 0 {
      WaitsFive(tick, s0, s, link, base, pcms, d);
    }
  }

  lemma {:induction false} SpurtPlays(tick: State -> State, s0: State, s: State, link: Link, base: nat, pcms: seq<Pcm>, d: nat, n: nat, j: nat)
    requires Clock(tick) && 1 <= j <= |pcms| <= 8 && base + |pcms| <= WRAP && (|pcms| >= 3 || d == 5) && n == d + j
    requires Waiting(s0, Ticks(tick, s, d), link, base, pcms, |pcms|, d)
    ensures Playing(s0, Ticks(tick, s, n), link, base, pcms, j)
    decreases j
  {
    if j == 1 {
      FirstTick(tick, s0, s, link, base, pcms, d, n);
    } else {
      SpurtPlays(tick, s0, s, link, base, pcms, d, n - 1, j - 1);
      NextTick(tick, s0, s, link, base, pcms, n, j);
    }
  }

  lemma FirstTick(tick: State -> State, s0: State, s: State, link: Link, base: nat, pcms: seq<Pcm>, d: nat, n: nat)
    requires Clock(tick) && 1 <= |pcms| && base + |pcms| <= WRAP && (|pcms| >= 3 || d == 5) && n == d + 1
    requires Waiting(s0, Ticks(tick, s, d), link, base, pcms, |pcms|, d)
    ensures Playing(s0, Ticks(tick, s, n), link, base, pcms, 1)
  {
    assert At(Ticks(tick, s, d));
    FirstSlot(s0, Ticks(tick, s, d), link, base, pcms, d);
  }

  lemma NextTick(tick: State -> State, s0: State, s: State, link: Link, base: nat, pcms: seq<Pcm>, n: nat, j: nat)
    requires Clock(tick) && n > 0 && 0 < j <= |pcms| && base + |pcms| <= WRAP && Playing(s0, Ticks(tick, s, n - 1), link, base, pcms, j - 1)
    ensures Playing(s0, Ticks(tick, s, n), link, base, pcms, j)
  {
    assert At(Ticks(tick, s, n - 1));
    SlotPlayed(s0, Ticks(tick, s, n - 1), link, base, pcms, j - 1);
  }

  /**
   One to eight frames in sequence, queued in any run between spurts behind an open gate:
   nothing is heard before the third frame is held or, with fewer, the sixth tick; from then
   on each tick plays the next frame.
   */
  lemma SpurtHeard(tick: State -> State, events: seq<Event>, s: State, link: Link, base: nat, pcms: seq<Pcm>, j: nat) returns (start: State)
    requires Clock(tick) && s == Run(events) && s.player.active.None?
    requires link in s.player.buffers ==> !Late(s.player.buffers[link], base)
    requires 1 <= |pcms| <= 8 && base + |pcms| <= WRAP && j <= |pcms|
    ensures start == Queued(s, link, base, pcms, |pcms|)
    ensures Ticks(tick, start, Delay(|pcms|) + j).heard == s.heard + Played(link, s.Life(link), base, pcms, j)
  {
    start := QueuedUp(events, s, link, base, pcms);
    HeardSoFar(tick, s, start, link, base, pcms, Delay(|pcms|), j);
  }

  lemma QueuedUp(events: seq<Event>, s: State, link: Link, base: nat, pcms: seq<Pcm>) returns (start: State)
    requires s == Run(events) && s.player.active.None? && 1 <= |pcms| <= 8
    requires link in s.player.buffers ==> !Late(s.player.buffers[link], base)
    ensures start == Queued(s, link, base, pcms, |pcms|) && Waiting(s, start, link, base, pcms, |pcms|, 0)
  {
    HeardInOrder(events);
    AllQueued(s, link, base, pcms, |pcms|);
    start := Queued(s, link, base, pcms, |pcms|);
  }

  lemma HeardSoFar(tick: State -> State, s0: State, s: State, link: Link, base: nat, pcms: seq<Pcm>, d: nat, j: nat)
    requires Clock(tick) && 1 <= |pcms| <= 8 && base + |pcms| <= WRAP && j <= |pcms| && d == Delay(|pcms|)
    requires Waiting(s0, s, link, base, pcms, |pcms|, 0)
    ensures Ticks(tick, s, d + j).heard == s0.heard + Played(link, s0.Life(link), base, pcms, j)
  {
    SpurtWaits(tick, s0, s, link, base, pcms, d);
    if j == 0 {
      assert s0.heard + [] == s0.heard;
    } else {
      SpurtPlays(tick, s0, s, link, base, pcms, d, d + j, j);
    }
  }

  /** The queued spurt once played: the claim is held through two silent ticks and free with the third. */
  lemma SpurtOver(tick: State -> State, s0: State, s: State, link: Link, base: nat, pcms: seq<Pcm>, d: nat, n: nat)
    requires Clock(tick) && 1 <= |pcms| <= 8 && base + |pcms| <= WRAP && d == Delay(|pcms|) && 1 <= n <= 3
    requires Waiting(s0, s, link, base, pcms, |pcms|, 0)
    ensures Ticks(tick, s, d + |pcms| + n).player.active == if n == 3 then None else Some(link)
  {
    SpurtWaits(tick, s0, s, link, base, pcms, d);
    SpurtPlays(tick, s0, s, link, base, pcms, d, d + |pcms|, |pcms|);
    AllPlayed(s0, Ticks(tick, s, d + |pcms|), link, base, pcms);
    Silences(tick, s, link, d + |pcms|, n, d + |pcms| + n);
  }

  lemma AllPlayed(s0: State, s: State, link: Link, base: nat, pcms: seq<Pcm>)
    requires pcms != [] && Playing(s0, s, link, base, pcms, |pcms|)
    ensures Silent(s, link, 0)
  {
    assert s.player.buffers[link].frames == map[];
  }

  lemma {:induction false} Silences(tick: State -> State, s: State, link: Link, n: nat, k: nat, m: nat)
    requires Clock(tick) && Silent(Ticks(tick, s, n), link, 0) && k <= 3 && m == n + k
    ensures k < 3 ==> Silent(Ticks(tick, s, m), link, k)
    ensures k == 3 ==> Ticks(tick, s, m).player.active.None?
    decreases k
  {
    if k > 0 {
      Silences(tick, s, link, n, k - 1, m - 1);
      MoreSilence(tick, s, link, m, k);
    }
  }

  lemma MoreSilence(tick: State -> State, s: State, link: Link, m: nat, k: nat)
    requires Clock(tick) && m > 0 && 0 < k <= 3 && Silent(Ticks(tick, s, m - 1), link, k - 1)
    ensures k < 3 ==> Silent(Ticks(tick, s, m), link, k)
    ensures k == 3 ==> Ticks(tick, s, m).player.active.None?
  {
    assert At(Ticks(tick, s, m - 1));
    if k == 3 {
      LastSilence(Ticks(tick, s, m - 1), link);
    } else {
      SilentTick(Ticks(tick, s, m - 1), link, k - 1);
    }
  }

  ghost predicate Silent(s: State, link: Link, silence: nat) {
    && s.player.active == Some(link) && s.player.playing && s.player.silence == silence
    && link in s.player.buffers && s.player.buffers[link].frames == map[]
  }

  lemma SilentTick(s: State, link: Link, silence: nat)
    requires silence < 2 && Silent(s, link, silence)
    ensures var s' := Step(s, Tick(true)); Silent(s', link, silence + 1) && s'.heard == s.heard
  {
    PopExactly(s.player.buffers[link], s.player.expected);
  }

  lemma LastSilence(s: State, link: Link)
    requires Silent(s, link, 2)
    ensures var s' := Step(s, Tick(true)); s'.player.active.None? && s'.heard == s.heard
  {
    PopExactly(s.player.buffers[link], s.player.expected);
  }


  // ----- Any tick of a playing spurt -----

  /** A slot whose frame is held is heard, and ends the silence. */
  lemma TickHears(s: State, link: Link)
    requires s.player.active == Some(link) && s.player.playing && s.player.expected < WRAP - 1
    requires link in s.player.buffers && s.player.expected in s.player.buffers[link].frames
    ensures var p, s' := s.player, Step(s, Tick(true));
      && s'.heard == s.heard + [Heard(link, s.Life(link), p.expected, p.buffers[link].frames[p.expected])]
      && s'.player.active == Some(link) && s'.player.playing && s'.player.silence == 0 && s'.player.expected == p.expected + 1
  {
    PopExactly(s.player.buffers[link], s.player.expected);
  }

  /** A slot whose frame is missing is one of silence; the third in a row ends the spurt, the gate kept. */
  lemma TickMisses(s: State, link: Link)
    requires s.player.active == Some(link) && s.player.playing && s.player.expected < WRAP - 1
    requires link in s.player.buffers && s.player.expected !in s.player.buffers[link].frames
    ensures var p, s' := s.player, Step(s, Tick(true));
      && s'.heard == s.heard && link in s'.player.buffers && Late(s'.player.buffers[link], p.expected)
      && (p.silence < 2 ==>
            && s'.player.active == Some(link) && s'.player.playing && s'.player.silence == p.silence + 1
            && s'.player.expected == p.expected + 1)
      && (p.silence >= 2 ==>
            s'.player.active.None? && !s'.player.playing && s'.player.buffers[link].frames == map[])
  {
    PopExactly(s.player.buffers[link], s.player.expected);
  }

  // ----- Other ends -----

  /** A dropped link is forgotten, and gives up the claim if it holds it. */
  lemma DropForgets(s: State, link: Link)
    ensures var s' := Step(s, Drop(link));
      && link !in s'.player.buffers && s'.heard == s.heard && s'.Life(link) > s.Life(link)
      && s'.player.active == if s.player.active == Some(link) then None else s.player.active
  {
  }

  /** An engine that dies or does not come up ends the spurt unheard: its frames go, its gate stays, the claim is free. */
  lemma EngineEnds(s: State, link: Link)
    requires s.player.active == Some(link) && link in s.player.buffers
    ensures s.player.playing ==> Freed(s, Step(s, EngineDies), link)
    ensures !s.player.playing && |s.player.buffers[link].frames| >= 3 ==> Freed(s, Step(s, Tick(false)), link)
  {
  }

  ghost predicate Freed(s: State, s': State, link: Link)
    requires link in s.player.buffers
  {
    && s'.player.active.None? && !s'.player.playing && s'.heard == s.heard
    && link in s'.player.buffers && s'.player.buffers[link] == Buffer(s.player.buffers[link].lastPlayed, map[])
  }

  /** While one link holds the claim, the frames of any other are dropped. */
  lemma BusyDrops(s: State, link: Link, other: Link, n: nat, pcm: Pcm)
    requires s.player.active == Some(link) && other != link
    ensures Step(s, Enqueue(other, n, pcm)).player == s.player
  {
  }
}
