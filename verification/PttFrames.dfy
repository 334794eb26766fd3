/**
 Sealed push-to-talk audio frames end to end: the wire layout (Core/Media/PTTAudioWire.swift),
 the sealer and the opener (Core/Media/PTTSessionCrypto.swift). The cipher is a parameter.
 */
module PttFrames {
  import opened Wrappers
  import opened BigEndian
  import opened ReplayWindow
  import WordBits

  type Data = seq<nat>

  datatype Frame = Frame(counter: Counter, ciphertext: Data, tag: Data)

  datatype Error = CounterCeiling | Replay | AuthenticationFailed

  /** Opening a box under the session key: the plaintext, or nothing if it is not authentic. */
  type Cipher = Frame -> Option<Data>

  // ----- The opener, as a value -----

  function Open(cipher: Cipher, w: Window, f: Frame): (Window, Result<Data, Error>) {
    if Replayed(w, f.counter) then (w, Err(Replay))
    else
      match cipher(f)
      case None => (w, Err(AuthenticationFailed))
      case Some(plaintext) => (Commit(w, f.counter), Ok(plaintext))
  }

  function After(cipher: Cipher, arrived: seq<Frame>): Window {
    if arrived == [] then Empty
    else Open(cipher, After(cipher, arrived[..|arrived| - 1]), arrived[|arrived| - 1]).0
  }

  function Outcome(cipher: Cipher, arrived: seq<Frame>, i: nat): Result<Data, Error>
    requires i < |arrived|
  {
    Open(cipher, After(cipher, arrived[..i]), arrived[i]).1
  }

  ghost function Accepted(cipher: Cipher, arrived: seq<Frame>): set<Counter> {
    set i | 0 <= i < |arrived| && Outcome(cipher, arrived, i).Ok? :: arrived[i].counter
  }

  lemma OutcomePrefix(cipher: Cipher, arrived: seq<Frame>, n: nat, i: nat)
    requires i < n <= |arrived|
    ensures Outcome(cipher, arrived[..n], i) == Outcome(cipher, arrived, i)
  {
    assert arrived[..n][..i] == arrived[..i];
  }

  lemma AcceptedSnoc(cipher: Cipher, arrived: seq<Frame>)
    requires arrived != []
    ensures var n := |arrived| - 1;
      Accepted(cipher, arrived) == Accepted(cipher, arrived[..n])
        + (if Outcome(cipher, arrived, n).Ok? then {arrived[n].counter} else {})
  {
    var n := |arrived| - 1;
    forall i | 0 <= i < n
      ensures Outcome(cipher, arrived[..n], i) == Outcome(cipher, arrived, i)
    {
      OutcomePrefix(cipher, arrived, n, i);
    }
  }

  lemma OpenRepresents(cipher: Cipher, w: Window, accepted: set<Counter>, f: Frame)
    requires Represents(w, accepted)
    ensures var (w', r) := Open(cipher, w, f);
      Represents(w', accepted + (if r.Ok? then {f.counter} else {}))
  {
    CommitRepresents(w, accepted, f.counter);
    assert accepted + {} == accepted;
  }

  /** Whatever arrives, the 64-bit window stands for the set of all accepted counters. */
  lemma {:induction false} WindowRepresentsAccepted(cipher: Cipher, arrived: seq<Frame>)
    ensures Represents(After(cipher, arrived), Accepted(cipher, arrived))
  {
    if arrived == [] {
      ReplayWindow.EmptyRepresents();
    } else {
      var n := |arrived| - 1;
      var w, before := After(cipher, arrived[..n]), Accepted(cipher, arrived[..n]);
      WindowRepresentsAccepted(cipher, arrived[..n]);
      AcceptedSnoc(cipher, arrived);
      OpenRepresents(cipher, w, before, arrived[n]);
    }
  }

  /** Some earlier accepted frame makes this one a duplicate or too old. */
  ghost predicate Stale(cipher: Cipher, arrived: seq<Frame>, i: nat)
    requires i < |arrived|
  {
    exists j :: 0 <= j < i && Outcome(cipher, arrived, j).Ok?
      && (arrived[j].counter == arrived[i].counter || arrived[j].counter - arrived[i].counter >= 64)
  }

  lemma StaleIsNotFresh(cipher: Cipher, arrived: seq<Frame>, i: nat)
    requires i < |arrived|
    ensures Stale(cipher, arrived, i) <==> !Fresh(Accepted(cipher, arrived[..i]), arrived[i].counter)
  {
    var before, c := arrived[..i], arrived[i].counter;
    forall j | 0 <= j < i
      ensures Outcome(cipher, before, j) == Outcome(cipher, arrived, j)
    {
      OutcomePrefix(cipher, arrived, i, j);
    }
    if !Fresh(Accepted(cipher, before), c) {
      var a :| a in Accepted(cipher, before) && (a == c || a - c >= WINDOW);
      var j :| 0 <= j < i && Outcome(cipher, before, j).Ok? && before[j].counter == a;
      assert arrived[j].counter == a;
    }
    if Stale(cipher, arrived, i) {
      var j :| 0 <= j < i && Outcome(cipher, arrived, j).Ok?
        && (arrived[j].counter == c || arrived[j].counter - c >= WINDOW);
      assert before[j].counter in Accepted(cipher, before);
    }
  }

  /**
   Over every sequence of arriving, reordered, duplicated or forged frames: a frame is
   taken for a replay exactly when its counter was accepted before or is 64 or more
   behind an accepted one, and otherwise the cipher decides.
   */
  lemma AcceptedExactly(cipher: Cipher, arrived: seq<Frame>, i: nat)
    requires i < |arrived|
    ensures Outcome(cipher, arrived, i) ==
      if Stale(cipher, arrived, i) then Err(Replay)
      else if cipher(arrived[i]).None? then Err(AuthenticationFailed)
      else Ok(cipher(arrived[i]).value)
  {
    var before := arrived[..i];
    WindowRepresentsAccepted(cipher, before);
    ReplayCheckExact(After(cipher, before), Accepted(cipher, before), arrived[i].counter);
    StaleIsNotFresh(cipher, arrived, i);
  }

  /** No counter is accepted twice. */
  lemma AcceptedOnce(cipher: Cipher, arrived: seq<Frame>, i: nat, j: nat)
    requires i < |arrived| && j < |arrived| && arrived[i].counter == arrived[j].counter
    requires Outcome(cipher, arrived, i).Ok? && Outcome(cipher, arrived, j).Ok?
    ensures i == j
  {
    AcceptedExactly(cipher, arrived, i);
    AcceptedExactly(cipher, arrived, j);
  }

  // ----- Forgeries change nothing -----

  function Authentic(cipher: Cipher, arrived: seq<Frame>): seq<Frame> {
    if arrived == [] then []
    else
      var n := |arrived| - 1;
      Authentic(cipher, arrived[..n]) + (if cipher(arrived[n]).Some? then [arrived[n]] else [])
  }

  /** The window after any arrivals is the window after the authentic ones alone. */
  lemma {:induction false} ForgeriesInvisible(cipher: Cipher, arrived: seq<Frame>)
    ensures After(cipher, arrived) == After(cipher, Authentic(cipher, arrived))
  {
    if arrived != [] {
      var n := |arrived| - 1;
      ForgeriesInvisible(cipher, arrived[..n]);
      var kept := Authentic(cipher, arrived);
      if cipher(arrived[n]).Some? {
        assert kept[..|kept| - 1] == Authentic(cipher, arrived[..n]);
      } else {
        assert kept == Authentic(cipher, arrived[..n]);
      }
    }
  }

  // ----- The sealer -----

  /** The pinned 12-byte nonce. */
  function Nonce(counter: Counter): (r: Data)
    ensures |r| == 12
  {
    [0, 0, 0, 0] + Put(counter, 8)
  }

  lemma NonceInjective(a: Counter, b: Counter)
    ensures Nonce(a) == Nonce(b) ==> a == b
  {
    Widths();
    GetPut(a, 8);
    GetPut(b, 8);
    assert Nonce(a)[4..] == Put(a, 8) && Nonce(b)[4..] == Put(b, 8);
  }

  function SealStep(counter: Counter): (Counter, Option<Counter>) {
    if counter == MAX then (counter, None) else (counter + 1, Some(counter))
  }

  function CounterAfter(start: Counter, calls: nat): Counter {
    if calls == 0 then start else SealStep(CounterAfter(start, calls - 1)).0
  }

  /** The counter the call numbered `k` seals under, if it seals. */
  function SealedUnder(start: Counter, k: nat): Option<Counter> {
    SealStep(CounterAfter(start, k)).1
  }

  lemma {:induction false} SealCounts(start: Counter, k: nat)
    ensures CounterAfter(start, k) == if start + k <= 0xffff_ffff_ffff_ffff then start + k else 0xffff_ffff_ffff_ffff
    ensures SealedUnder(start, k) == if start + k < 0xffff_ffff_ffff_ffff then Some(start + k) else None
  {
    if k > 0 {
      SealCounts(start, k - 1);
    }
  }

  /** No two seals of one session share a nonce, and from the ceiling on every seal is refused. */
  lemma NonceNeverRepeats(start: Counter, j: nat, k: nat)
    requires j < k
    ensures SealedUnder(start, j).None? ==> SealedUnder(start, k).None?
    ensures SealedUnder(start, j).Some? && SealedUnder(start, k).Some? ==>
      Nonce(SealedUnder(start, j).value) != Nonce(SealedUnder(start, k).value)
  {
    SealCounts(start, j);
    SealCounts(start, k);
    if SealedUnder(start, j).Some? && SealedUnder(start, k).Some? {
      NonceInjective(SealedUnder(start, j).value, SealedUnder(start, k).value);
    }
  }

  // ----- Sealer, network, opener -----

  /** The cipher opens nothing but frames this session sealed, each under its own counter. */
  ghost predicate Genuine(cipher: Cipher, spoken: seq<Data>) {
    forall f: Frame :: cipher(f).Some? ==>
      f.counter < |spoken| && SealedUnder(0, f.counter) == Some(f.counter) && cipher(f).value == spoken[f.counter]
  }

  /** Whatever the network does, each sealed frame is heard at most once, as it was spoken. */
  lemma HeardAtMostOnce(cipher: Cipher, spoken: seq<Data>, arrived: seq<Frame>, i: nat)
    requires Genuine(cipher, spoken)
    requires i < |arrived| && Outcome(cipher, arrived, i).Ok?
    ensures var k := arrived[i].counter;
      && k < |spoken| && Outcome(cipher, arrived, i).value == spoken[k]
      && forall j :: 0 <= j < |arrived| && Outcome(cipher, arrived, j).Ok? && arrived[j].counter == k ==> j == i
  {
    AcceptedExactly(cipher, arrived, i);
    forall j | 0 <= j < |arrived| && Outcome(cipher, arrived, j).Ok? && arrived[j].counter == arrived[i].counter
      ensures j == i
    {
      AcceptedOnce(cipher, arrived, i, j);
    }
  }

  // ----- The wire -----

  function Pack(f: Frame): Data {
    Put(f.counter, 8) + f.ciphertext + f.tag
  }

  function Unpack(sealed: Data): (r: Option<Frame>)
    requires Bytes(sealed)
  {
    if |sealed| < 24 then None
    else
      UnpackFits(sealed[..8]);
      Some(Frame(Get(sealed[..8]), sealed[8..|sealed| - 16], sealed[|sealed| - 16..]))
  }

  lemma UnpackFits(head: Data)
    requires Bytes(head) && |head| == 8
    ensures Get(head) <= MAX
  {
    PutGet(head);
    Widths();
  }

  /** Unpacking undoes packing exactly for a 16-byte tag, and any 24 bytes are some frame. */
  lemma WireRoundTrip(f: Frame)
    requires Bytes(f.ciphertext) && Bytes(f.tag)
    ensures Bytes(Pack(f))
    ensures Unpack(Pack(f)) == Some(f) <==> |f.tag| == 16
  {
    Widths();
    GetPut(f.counter, 8);
    var w := Pack(f);
    if |f.tag| == 16 {
      assert w[..8] == Put(f.counter, 8);
      assert w[8..|w| - 16] == f.ciphertext;
      assert w[|w| - 16..] == f.tag;
    }
  }

  lemma WireOnto(sealed: Data)
    requires Bytes(sealed)
    ensures Unpack(sealed).Some? <==> |sealed| >= 24
    ensures Unpack(sealed).Some? ==> Pack(Unpack(sealed).value) == sealed
  {
    if |sealed| >= 24 {
      PutGet(sealed[..8]);
      UnpackFits(sealed[..8]);
    }
  }

  // ----- The objects -----

  class PTTFrameSealer {
    var counter: Counter

    constructor ()
      ensures counter == 0
    {
      counter := 0;
    }

    /** Refuses at the ceiling; otherwise seals under the current counter and moves on. */
    method Seal(seal: (Data, Counter) -> (Data, Data), plaintext: Data) returns (r: Result<Frame, Error>)
      modifies this
      ensures counter == SealStep(old(counter)).0
      ensures r == match SealStep(old(counter)).1
        case None => Err(CounterCeiling)
        case Some(c) => Ok(Frame(c, seal(plaintext, c).0, seal(plaintext, c).1))
    {
      if counter == MAX {
        return Err(CounterCeiling);
      }
      var c := counter;
      var box := seal(plaintext, c);
      counter := counter + 1;
      return Ok(Frame(c, box.0, box.1));
    }
  }

  class PTTFrameOpener {
    var highest: Counter
    var bitmap: nat
    var seenAny: bool
    ghost var accepted: set<Counter>

    ghost function View(): Window
      reads this
    {
      Window(seenAny, highest, bitmap)
    }

    ghost predicate Valid()
      reads this
    {
      Represents(View(), accepted)
    }

    constructor ()
      ensures Valid() && View() == Empty && accepted == {}
    {
      highest, bitmap, seenAny, accepted := 0, 0, false, {};
      new;
      ReplayWindow.EmptyRepresents();
    }

    /** Accepts exactly the fresh authentic counters, and changes nothing otherwise. */
    method OpenFrame(cipher: Cipher, f: Frame) returns (r: Result<Data, Error>)
      requires Valid()
      modifies this
      ensures Valid()
      ensures (View(), r) == Open(cipher, old(View()), f)
      ensures r.Ok? <==> Fresh(old(accepted), f.counter) && cipher(f).Some?
      ensures r == Err(Replay) <==> !Fresh(old(accepted), f.counter)
      ensures r.Ok? ==> cipher(f) == Some(r.value) && accepted == old(accepted) + {f.counter}
      ensures r.Err? ==> View() == old(View()) && accepted == old(accepted)
    {
      ReplayCheckExact(View(), accepted, f.counter);
      CommitRepresents(View(), accepted, f.counter);
      if seenAny && f.counter <= highest {
        var diff := highest - f.counter;
        if diff >= WINDOW {
          return Err(Replay);
        }
        if WordBits.Bit(bitmap, diff) {
          return Err(Replay);
        }
      }
      var box := cipher(f);
      if box.None? {
        return Err(AuthenticationFailed);
      }
      accepted := accepted + {f.counter};
      if !seenAny {
        seenAny, highest, bitmap := true, f.counter, 1;
      } else if f.counter > highest {
        var shift := f.counter - highest;
        bitmap := if shift >= WINDOW then 0 else ShiftLeft(bitmap, shift);
        bitmap := WordBits.Or(bitmap, 1);
        highest := f.counter;
      } else {
        bitmap := WordBits.Or(bitmap, ShiftLeft(1, highest - f.counter));
      }
      return Ok(box.value);
    }
  }
}
