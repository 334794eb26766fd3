/**
 The push-to-talk player (Core/Media/PTTPlayer.swift): one audible stream at a time, drained
 by a 20 ms clock on a serial queue. Each queue item is one step.
 */
module PttPlayer {
  import opened Wrappers
  import opened Jitter

  type Link = nat

  const WRAP: nat := 0x1_0000_0000_0000_0000
  const PREBUFFER_DEPTH: nat := 3
  const PREBUFFER_TIMEOUT: nat := 6
  const MAX_SILENCE: nat := 3

  /** A frame as it was handed to the speaker, with the life of the link's buffer it came from. */
  datatype Heard = Heard(link: Link, life: nat, seq_: nat, pcm: Pcm)

  datatype Player = Player(
    buffers: map<Link, Buffer>,
    active: Option<Link>,
    playing: bool,
    prebufferTicks: nat,
    expected: nat,
    silence: nat)

  datatype State = State(
    player: Player,
    heard: seq<Heard>,
    enqueued: set<(Link, nat, Pcm)>,
    lives: map<Link, nat>)
  {
    /** How often the link's buffer has been forgotten. */
    function Life(link: Link): nat { if link in lives then lives[link] else 0 }
  }

  const Start := State(Player(map[], None, false, 0, 0, 0), [], {}, map[])

  datatype Event =
    | Enqueue(link: Link, seq_: nat, pcm: Pcm)
    | Drop(link: Link)
    | Tick(engineStarts: bool)
    | EngineDies

  function Forget(s: State, link: Link): State {
    s.(player := s.player.(buffers := s.player.buffers - {link}),
       lives := s.lives[link := s.Life(link) + 1])
  }

  function EndSpurt(s: State, keepBuffer: bool): State {
    var p := s.player;
    var s' := match p.active
      case None => s
      case Some(link) =>
        if !keepBuffer then Forget(s, link)
        else if link in p.buffers then s.(player := p.(buffers := p.buffers[link := Flushed(p.buffers[link])]))
        else s;
    s'.(player := s'.player.(active := None, playing := false, silence := 0))
  }

  ghost function Enqueued(s: State, link: Link, n: nat, pcm: Pcm): State {
    var s1 := s.(enqueued := s.enqueued + {(link, n, pcm)});
    var p := s1.player;
    if p.active.Some? && p.active.value != link then s1
    else
      var p1 := if p.active.None? then p.(active := Some(link), playing := false, prebufferTicks := 0, silence := 0) else p;
      var b := if link in p1.buffers then p1.buffers[link] else Fresh;
      s1.(player := p1.(buffers := p1.buffers[link := Pushed(b, n, pcm).0]))
  }

  function Dropped(s: State, link: Link): State {
    var s1 := Forget(s, link);
    if s.player.active == Some(link) then EndSpurt(s1, false) else s1
  }

  /** One slot: a frame, or silence until the spurt is over. */
  function PlaySlot(s: State, link: Link): State {
    var p := s.player;
    var (b, r) := if link in p.buffers then Popped(p.buffers[link], p.expected) else (Fresh, Empty);
    var p1 := if link in p.buffers then p.(buffers := p.buffers[link := b]) else p;
    var next := (p.expected + 1) % WRAP;
    match r
    case Play(pcm) =>
      s.(player := p1.(silence := 0, expected := next),
         heard := s.heard + [Heard(link, s.Life(link), p.expected, pcm)])
    case _ =>
      if p.silence + 1 >= MAX_SILENCE then EndSpurt(s.(player := p1), true)
      else s.(player := p1.(silence := p.silence + 1, expected := next))
  }

  ghost function Ticked(s: State, engineStarts: bool): State {
    var p := s.player;
    if p.active.None? then EndSpurt(s, false)
    else if p.playing then PlaySlot(s, p.active.value)
    else Prebuffered(s, p.active.value, engineStarts)
  }

  /** Wait for three frames or six ticks, then start the clock at the oldest frame held. */
  ghost function Prebuffered(s: State, link: Link, engineStarts: bool): State {
    var p := s.player.(prebufferTicks := s.player.prebufferTicks + 1);
    var s1 := s.(player := p);
    var held := if link in p.buffers then p.buffers[link].frames else map[];
    if |held| < PREBUFFER_DEPTH && p.prebufferTicks < PREBUFFER_TIMEOUT then s1
    else if held == map[] then
      if p.prebufferTicks >= PREBUFFER_TIMEOUT then EndSpurt(s1, true) else s1
    else if !engineStarts then EndSpurt(s.(player := p.(expected := Least(held.Keys))), true)
    else PlaySlot(s.(player := p.(expected := Least(held.Keys), playing := true)), link)
  }

  ghost function Step(s: State, e: Event): State {
    match e
    case Enqueue(link, n, pcm) => Enqueued(s, link, n, pcm)
    case Drop(link) => Dropped(s, link)
    case Tick(engineStarts) => Ticked(s, engineStarts)
    case EngineDies => if s.player.playing then EndSpurt(s, true) else s
  }

  ghost function Run(events: seq<Event>): State {
    if events == [] then Start else Step(Run(events[..|events| - 1]), events[|events| - 1])
  }

  // ----- What every step keeps -----

  ghost predicate BuffersSound(s: State) {
    forall l :: l in s.player.buffers ==>
      && Valid(s.player.buffers[l])
      && (Some(l) != s.player.active ==> s.player.buffers[l].frames == map[])
      && (forall k :: k in s.player.buffers[l].frames ==> (l, k, s.player.buffers[l].frames[k]) in s.enqueued)
  }

  ghost predicate HeardSound(s: State) {
    && (forall i :: 0 <= i < |s.heard| ==> s.heard[i].life <= s.Life(s.heard[i].link))
    && (forall i :: 0 <= i < |s.heard| && s.heard[i].life == s.Life(s.heard[i].link) ==>
          s.heard[i].link in s.player.buffers && Late(s.player.buffers[s.heard[i].link], s.heard[i].seq_))
  }

  ghost predicate InOrder(heard: seq<Heard>) {
    forall i, j :: 0 <= i < j < |heard| && heard[i].link == heard[j].link && heard[i].life == heard[j].life ==>
      heard[i].seq_ < heard[j].seq_
  }

  ghost predicate WasEnqueued(s: State) {
    forall i :: 0 <= i < |s.heard| ==> (s.heard[i].link, s.heard[i].seq_, s.heard[i].pcm) in s.enqueued
  }

  ghost predicate Inv(s: State) {
    BuffersSound(s) && HeardSound(s) && InOrder(s.heard) && WasEnqueued(s)
  }

  lemma EndSpurtKeeps(s: State, keepBuffer: bool)
    requires Inv(s)
    ensures Inv(EndSpurt(s, keepBuffer))
  {
  }

  lemma ForgetKeeps(s: State, link: Link)
    requires Inv(s)
    ensures Inv(Forget(s, link))
  {
  }

  /** The claiming link's buffer may move on, as long as it forgets nothing it passed. */
  lemma BufferKeeps(s: State, link: Link, b: Buffer)
    requires Inv(s) && s.player.active == Some(link) && Valid(b)
    requires forall k :: k in b.frames ==> (link, k, b.frames[k]) in s.enqueued
    requires link in s.player.buffers ==> forall n: nat :: Late(s.player.buffers[link], n) ==> Late(b, n)
    ensures Inv(s.(player := s.player.(buffers := s.player.buffers[link := b])))
  {
  }

  lemma ClaimKeeps(s: State, link: Link, n: nat, pcm: Pcm)
    requires Inv(s) && (s.player.active.None? || s.player.active == Some(link))
    ensures var p := s.player;
      Inv(s.(enqueued := s.enqueued + {(link, n, pcm)}, player := p.(active := Some(link))))
  {
  }

  lemma EnqueueKeeps(s: State, link: Link, n: nat, pcm: Pcm)
    requires Inv(s)
    ensures Inv(Enqueued(s, link, n, pcm))
  {
    var p := s.player;
    if p.active.None? || p.active == Some(link) {
      var b := if link in p.buffers then p.buffers[link] else Fresh;
      PushKeeps(b, n, pcm);
      ClaimKeeps(s, link, n, pcm);
      var s1 := s.(enqueued := s.enqueued + {(link, n, pcm)}, player := p.(active := Some(link)));
      BufferKeeps(s1, link, Pushed(b, n, pcm).0);
      var s2 := s1.(player := s1.player.(buffers := p.buffers[link := Pushed(b, n, pcm).0]));
      ClockKeeps(s2, Enqueued(s, link, n, pcm).player);
    }
  }

  lemma PushKeeps(b: Buffer, n: nat, pcm: Pcm)
    requires Valid(b)
    ensures var b' := Pushed(b, n, pcm).0;
      && Valid(b') && b'.lastPlayed == b.lastPlayed
      && forall k :: k in b'.frames ==> (k in b.frames && b'.frames[k] == b.frames[k]) || (k == n && b'.frames[k] == pcm)
  {
  }

  lemma PopKeeps(b: Buffer, e: nat)
    requires Valid(b)
    ensures var (b', r) := Popped(b, e);
      && Valid(b') && Late(b', e) && (forall n: nat :: Late(b, n) ==> Late(b', n))
      && (forall k :: k in b'.frames ==> k in b.frames && b'.frames[k] == b.frames[k])
      && (r.Play? ==> e in b.frames && r.pcm == b.frames[e] && !Late(b, e))
  {
    BeyondSmaller(b.frames, e);
  }

  /** Hearing one more frame, newer than all of this life. */
  lemma HeardKeeps(s: State, h: Heard)
    requires Inv(s) && h.life == s.Life(h.link) && h.link in s.player.buffers && Late(s.player.buffers[h.link], h.seq_)
    requires (h.link, h.seq_, h.pcm) in s.enqueued
    requires forall i :: 0 <= i < |s.heard| && s.heard[i].link == h.link && s.heard[i].life == h.life ==> s.heard[i].seq_ < h.seq_
    ensures Inv(s.(heard := s.heard + [h]))
  {
  }

  /** The state between taking a slot from the buffer and acting on it. */
  lemma SlotKeeps(s: State, link: Link)
    requires Inv(s) && s.player.active == Some(link) && link in s.player.buffers
    ensures var p := s.player;
      var (b, r) := Popped(p.buffers[link], p.expected);
      var s1 := s.(player := p.(buffers := p.buffers[link := b]));
      && Inv(s1)
      && (r.Play? ==> Inv(s1.(heard := s.heard + [Heard(link, s.Life(link), p.expected, r.pcm)])))
  {
    var p := s.player;
    var (b, r) := Popped(p.buffers[link], p.expected);
    PopKeeps(p.buffers[link], p.expected);
    BufferKeeps(s, link, b);
    if r.Play? {
      HeardKeeps(s.(player := p.(buffers := p.buffers[link := b])), Heard(link, s.Life(link), p.expected, r.pcm));
    }
  }

  /** With the slot taken, the clock moves on or the spurt ends. */
  lemma SlotActedOn(s1: State, p: Player, silence: nat, expected: nat)
    requires Inv(s1) && s1.player == p
    ensures Inv(s1.(player := p.(silence := silence, expected := expected)))
    ensures Inv(EndSpurt(s1, true))
  {
    ClockKeeps(s1, p.(silence := silence, expected := expected));
    EndSpurtKeeps(s1, true);
  }

  lemma PlayedSlotKeeps(s: State, link: Link)
    requires Inv(s) && s.player.active == Some(link) && link in s.player.buffers
    requires Popped(s.player.buffers[link], s.player.expected).1.Play?
    ensures Inv(PlaySlot(s, link))
  {
    var p := s.player;
    var (b, r) := Popped(p.buffers[link], p.expected);
    var p1 := p.(buffers := p.buffers[link := b]);
    var s1 := s.(player := p1, heard := s.heard + [Heard(link, s.Life(link), p.expected, r.pcm)]);
    SlotKeeps(s, link);
    ClockKeeps(s1, p1.(silence := 0, expected := (p.expected + 1) % WRAP));
  }

  lemma HeldSlotKeeps(s: State, link: Link)
    requires Inv(s) && s.player.active == Some(link) && link in s.player.buffers
    ensures Inv(PlaySlot(s, link))
  {
    var p := s.player;
    var (b, r) := Popped(p.buffers[link], p.expected);
    if r.Play? {
      PlayedSlotKeeps(s, link);
    } else {
      var p1 := p.(buffers := p.buffers[link := b]);
      SlotKeeps(s, link);
      SlotActedOn(s.(player := p1), p1, p.silence + 1, (p.expected + 1) % WRAP);
    }
  }

  lemma PlaySlotKeeps(s: State, link: Link)
    requires Inv(s) && s.player.active == Some(link)
    ensures Inv(PlaySlot(s, link))
  {
    if link in s.player.buffers {
      HeldSlotKeeps(s, link);
    } else {
      SlotActedOn(s, s.player, s.player.silence + 1, (s.player.expected + 1) % WRAP);
    }
  }

  lemma ClockKeeps(s: State, p: Player)
    requires Inv(s) && p.buffers == s.player.buffers && p.active == s.player.active
    ensures Inv(s.(player := p))
  {
  }

  lemma TickKeeps(s: State, engineStarts: bool)
    requires Inv(s)
    ensures Inv(Ticked(s, engineStarts))
  {
    var p := s.player;
    EndSpurtKeeps(s, false);
    if p.active.Some? {
      var link := p.active.value;
      if p.playing {
        PlaySlotKeeps(s, link);
      } else {
        WaitingTickKeeps(s, link, engineStarts);
      }
    }
  }

  lemma WaitingTickKeeps(s: State, link: Link, engineStarts: bool)
    requires Inv(s) && s.player.active == Some(link)
    ensures Inv(Prebuffered(s, link, engineStarts))
  {
    var p := s.player.(prebufferTicks := s.player.prebufferTicks + 1);
    var held := if link in p.buffers then p.buffers[link].frames else map[];
    if held == map[] || (|held| < PREBUFFER_DEPTH && p.prebufferTicks < PREBUFFER_TIMEOUT) {
      ClockKeeps(s, p);
      EndSpurtKeeps(s.(player := p), true);
    } else if !engineStarts {
      var p2 := p.(expected := Least(held.Keys));
      ClockKeeps(s, p2);
      EndSpurtKeeps(s.(player := p2), true);
    } else {
      var p3 := p.(expected := Least(held.Keys), playing := true);
      ClockKeeps(s, p3);
      PlaySlotKeeps(s.(player := p3), link);
    }
  }

  lemma StepKeeps(s: State, e: Event)
    requires Inv(s)
    ensures Inv(Step(s, e))
  {
    match e
    case Enqueue(link, n, pcm) => EnqueueKeeps(s, link, n, pcm);
    case Drop(link) =>
      ForgetKeeps(s, link);
      EndSpurtKeeps(Forget(s, link), false);
    case Tick(engineStarts) => TickKeeps(s, engineStarts);
    case EngineDies => EndSpurtKeeps(s, true);
  }

  /**
   Over every run of frames, ticks, drops and dying engines: within one life of a link's
   buffer, across all its spurts, frames are heard in strictly increasing sequence, each
   as it was enqueued for that link; only the claiming link holds frames.
   */
  lemma {:induction false} HeardInOrder(events: seq<Event>)
    ensures Inv(Run(events))
  {
    if events != [] {
      var n := |events| - 1;
      HeardInOrder(events[..n]);
      StepKeeps(Run(events[..n]), events[n]);
    }
  }

  /** Only the link that holds the claim is ever heard. */
  lemma OnlyClaimHeard(s: State, e: Event)
    ensures |Step(s, e).heard| <= |s.heard| + 1
    ensures |Step(s, e).heard| > |s.heard| ==>
      e.Tick? && s.player.active == Some(Step(s, e).heard[|s.heard|].link)
  {
  }
}
