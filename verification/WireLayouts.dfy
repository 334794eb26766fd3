/**
 The bytes on the wire and at rest, field by field. `Put` is big-endian: `BigEndian.PutAt`
 gives each of its bytes.
 */
module WireLayouts {
  import opened Wrappers
  import opened BigEndian
  import AtRestCodec
  import Contacts
  import InviteWire
  import Nip44
  import Payload
  import PttFrames
  import ReplayWindow

  type Data = seq<nat>

  // ----- Audio frames -----

  /** Four zero bytes, then the counter in eight. */
  lemma NonceLayout(counter: ReplayWindow.Counter)
    ensures var n := PttFrames.Nonce(counter);
      |n| == 12 && n[..4] == [0, 0, 0, 0] && n[4..] == Put(counter, 8)
  {
  }

  /** The counter in eight bytes, the ciphertext, the tag in the last sixteen. */
  lemma FrameLayout(f: PttFrames.Frame)
    requires |f.tag| == 16
    ensures var w := PttFrames.Pack(f);
      && |w| == 24 + |f.ciphertext| && w[..8] == Put(f.counter, 8)
      && w[8..|w| - 16] == f.ciphertext && w[|w| - 16..] == f.tag
  {
  }

  // ----- Sealed payloads -----

  /** The kinds by number, as they are written and as they are read. */
  lemma Kinds(kind: Payload.Kind, body: Data)
    ensures var w := Payload.MessagePayload(kind, body).Encoded();
      w[1..] == body && w[0] ==
        match kind
        case Text => 1
        case MediaManifest => 2
        case MediaChunk => 3
        case Ack => 4
        case NostrIdentity => 5
        case ReconnectHello => 6
        case InviteEcho => 7
        case CallRequest => 8
        case CallAnswer => 9
        case CallDecline => 10
        case InviteEchoV2 => 11
        case PttOpen => 12
        case PttClose => 13
    ensures Payload.KindOf(Payload.MessagePayload(kind, body).Encoded()[0]) == Some(kind)
  {
  }

  /** A tag and a body decode exactly if the tag is 1 to 13 and an open has 48 bytes, a close 16; to that tag and body. */
  lemma DecodeExactly(tag: nat, body: Data)
    ensures var p := Payload.Decode([tag] + body);
      && (p.Some? <==> 1 <= tag <= 13 && (tag == 12 ==> |body| == 48) && (tag == 13 ==> |body| == 16))
      && (p.Some? ==> p.value.body == body && p.value.kind.Tag() == tag)
  {
    assert ([tag] + body)[1..] == body;
  }

  /** What is sealed: media bare, anything else behind its length in four bytes and padded with zeros. */
  lemma SealedLayout(p: Payload.MessagePayload)
    requires 1 + |p.body| < 0x1_0000_0000
    ensures var w, n := p.SealedPlaintext(), 1 + |p.body|;
      if p.kind.Tag() == 2 || p.kind.Tag() == 3 then w == [p.kind.Tag()] + p.body
      else
        && |w| >= 4 + n && w[..4] == Put(n, 4) && w[4] == p.kind.Tag() && w[5..4 + n] == p.body
        && forall i :: 4 + n <= i < |w| ==> w[i] == 0
  {
    if !p.kind.Media() {
      PadLayout(p.Encoded());
      var w, x := Payload.Pad(p.Encoded()), p.Encoded();
      assert w[4] == w[4..4 + |x|][0] && w[5..4 + |x|] == w[4..4 + |x|][1..];
    }
  }

  lemma PadLayout(x: Data)
    requires |x| < 0x1_0000_0000
    ensures var w := Payload.Pad(x);
      && |w| >= 4 + |x| && w[..4] == Put(|x|, 4) && w[4..4 + |x|] == x
      && forall i :: 4 + |x| <= i < |w| ==> w[i] == 0
  {
  }

  // ----- NIP-44 -----

  /** The length in two bytes, the text, zeros. */
  lemma Nip44Layout(x: Data)
    requires 1 <= |x| <= 65535
    ensures var w := Nip44.Pad(x);
      && |w| >= 2 + |x| && w[..2] == Put(|x|, 2) && w[2..2 + |x|] == x
      && forall i :: 2 + |x| <= i < |w| ==> w[i] == 0
  {
    var z := Nip44Parts(x);
    ThreeParts(Nip44.Pad(x), Put(|x|, 2), x, z);
  }

  lemma Nip44Parts(x: Data) returns (z: nat)
    requires |x| <= 65535
    ensures Nip44.Pad(x) == Put(|x|, 2) + x + Zeros(z)
  {
    assert |x| % 0x1_0000 == |x|;
    z := if Nip44.CalcPaddedLen(|x|) > |x| then Nip44.CalcPaddedLen(|x|) - |x| else 0;
  }

  lemma ThreeParts(w: Data, head: Data, x: Data, z: nat)
    requires w == head + x + Zeros(z)
    ensures |w| == |head| + |x| + z && w[..|head|] == head && w[|head|..|head| + |x|] == x
    ensures forall i :: |head| + |x| <= i < |w| ==> w[i] == 0
  {
  }

  // ----- At-rest files -----

  /** Version 1, the count in two bytes, then one record after another. */
  lemma FileLayout<V>(f: AtRestCodec.Format<V>, ids: seq<Data>, m: map<Data, V>)
    requires AtRestCodec.Lists(ids, m) && AtRestCodec.Encode(f, ids, m).Ok?
    ensures var w := AtRestCodec.Encode(f, ids, m).value;
      && |ids| <= 65535 && |w| >= 3 && w[0] == 1 && w[1..3] == Put(|ids|, 2)
      && w[3..] == AtRestCodec.Records(f, AtRestCodec.Sort(ids), m)
  {
  }

  /** A record of `width` bytes stands at `at`: the id, then the body. */
  predicate RecordHere(w: Data, at: nat, width: nat, id: Data, body: Data) {
    && at + width <= |w| && |id| <= width
    && w[at..at + |id|] == id && w[at + |id|..at + width] == body
  }

  lemma RecordSlid(w: Data, n: nat, at: nat, width: nat, id: Data, body: Data)
    requires n <= |w| && RecordHere(w[n..], at, width, id, body)
    ensures RecordHere(w, n + at, width, id, body)
  {
    assert w[n..][at..at + |id|] == w[n + at..n + at + |id|];
    assert w[n..][at + |id|..at + width] == w[n + at + |id|..n + at + width];
  }

  /** The record of each id, in ascending order: the id, then its body. */
  lemma {:induction false} RecordAt<V(!new)>(f: AtRestCodec.Format<V>, ids: seq<Data>, m: map<Data, V>, k: nat)
    requires AtRestCodec.Sound(f) && AtRestCodec.Standard(f.idSize, ids) && (forall x :: x in ids ==> x in m) && k < |ids|
    ensures RecordHere(AtRestCodec.Records(f, ids, m), AtRestCodec.Times(k, f.Width()), f.Width(), ids[k], f.put(m[ids[k]]))
  {
    if k == 0 {
      RecordFirst(f, ids, m);
    } else {
      AtRestCodec.RecordSplits(f, ids, m);
      RecordAt(f, ids[1..], m, k - 1);
      var w, rest := AtRestCodec.Records(f, ids, m), AtRestCodec.Records(f, ids[1..], m);
      RecordLater(w, rest, f.Width(), k, ids[k], f.put(m[ids[k]]));
    }
  }

  lemma RecordLater(w: Data, rest: Data, width: nat, k: nat, id: Data, body: Data)
    requires k > 0 && width <= |w| && w[width..] == rest && RecordHere(rest, AtRestCodec.Times(k - 1, width), width, id, body)
    ensures RecordHere(w, AtRestCodec.Times(k, width), width, id, body)
  {
    RecordSlid(w, width, AtRestCodec.Times(k - 1, width), width, id, body);
  }

  lemma RecordFirst<V(!new)>(f: AtRestCodec.Format<V>, ids: seq<Data>, m: map<Data, V>)
    requires AtRestCodec.Sound(f) && AtRestCodec.Standard(f.idSize, ids) && (forall x :: x in ids ==> x in m) && ids != []
    ensures RecordHere(AtRestCodec.Records(f, ids, m), 0, f.Width(), ids[0], f.put(m[ids[0]]))
  {
    AtRestCodec.RecordSplits(f, ids, m);
  }

  /** The two's complement of a signed 64-bit value. */
  function Bits64(v: Contacts.Int64): nat {
    if v >= 0 then v else 0x1_0000_0000_0000_0000 + v
  }

  /** A contact is 32 bytes of identity, its time in eight bytes, and 1 for verified or 0 for not. */
  lemma ContactLayout(e: Contacts.Entry)
    ensures var f := Contacts.AllowlistFormat();
      f.idSize == 32 && f.bodySize == 9 && f.put(e) == Put(Bits64(e.pairedAt), 8) + [if e.verified then 1 else 0]
  {
  }

  /** A pending invite is 16 bytes of id and its expiry in eight. */
  lemma PendingLayout(expiresAt: Contacts.Int64)
    ensures var f := Contacts.InvitesFormat();
      f.idSize == 16 && f.bodySize == 8 && f.put(expiresAt) == Put(Bits64(expiresAt), 8)
  {
  }

  // ----- Invites -----

  /** Version 1, two length-prefixed blobs: the bundle, and the key or nothing. */
  lemma PairingLayout(p: InviteWire.PairingPayload)
    ensures var key := if p.nostrPublicKey.Some? then p.nostrPublicKey.value else [];
      p.Wire() == [1] + (Put(|p.bundle|, 4) + p.bundle) + (Put(|key|, 4) + key)
  {
  }

  /** Version 1, the id, minted and expires, then the length-prefixed payload. */
  lemma InviteLayout(inv: InviteWire.Invite)
    requires |inv.id| == 16
    ensures var p := inv.payload.Wire();
      inv.Wire() == [1] + inv.id + Put(Bits64(inv.mintedAt), 8) + Put(Bits64(inv.expiresAt), 8) + (Put(|p|, 4) + p)
  {
  }


  // ----- What is refused -----

  /** A padded payload is read by its length alone: whatever fits is taken, and the rest ignored. */
  lemma UnpadExactly(b: Data)
    ensures Payload.Unpad(b) ==
      if |b| < 4 || |b| < 4 + Get(b[..4]) then None else Some(b[4..4 + Get(b[..4])])
  {
  }

  /** A NIP-44 text is read exactly if its length is positive, its padding is the one due to that length, and it is text. */
  lemma Nip44Reads(isText: Data -> bool, b: Data)
    ensures Nip44.Unpad(isText, b) ==
      if |b| >= 3 && 1 <= Get(b[..2]) <= |b| - 2 && |b| == 2 + Nip44.CalcPaddedLen(Get(b[..2])) && isText(b[2..2 + Get(b[..2])])
      then Some(b[2..2 + Get(b[..2])]) else None
  {
  }

  /** A table is refused for its count first, then for the size of its first odd id in order. */
  lemma EncodeVerdict<V>(f: AtRestCodec.Format<V>, ids: seq<Data>, m: map<Data, V>)
    requires AtRestCodec.Lists(ids, m)
    ensures var r, sorted := AtRestCodec.Encode(f, ids, m), AtRestCodec.Sort(ids);
      if |ids| > 65535 then r == Err(AtRestCodec.TooManyEntries(|ids|))
      else if forall i :: 0 <= i < |sorted| ==> |sorted[i]| == f.idSize then r.Ok?
      else exists i :: IsFirstOdd(f.idSize, sorted, i) && r == Err(AtRestCodec.NonStandardId(|sorted[i]|))
  {
    var sorted := AtRestCodec.Sort(ids);
    if AtRestCodec.Standard(f.idSize, sorted) {
      assert |ids| <= 65535 ==> AtRestCodec.Encode(f, ids, m).Ok?;
    } else {
      var i := FirstOdd(f.idSize, sorted);
      assert |AtRestCodec.Sort(ids)[i]| != f.idSize;
    }
  }

  ghost predicate IsFirstOdd(size: nat, ids: seq<Data>, i: int) {
    0 <= i < |ids| && |ids[i]| != size && forall j :: 0 <= j < i ==> |ids[j]| == size
  }

  lemma {:induction false} FirstOdd(size: nat, ids: seq<Data>) returns (i: nat)
    requires !AtRestCodec.Standard(size, ids)
    ensures IsFirstOdd(size, ids, i) && AtRestCodec.FirstOddSize(size, ids) == |ids[i]|
  {
    if |ids[0]| != size {
      i := 0;
    } else {
      var k := FirstOdd(size, ids[1..]);
      i := k + 1;
      assert forall j :: 0 < j <= k ==> ids[j] == ids[1..][j - 1];
    }
  }

  /** A file is refused for its header, its version, its length, in this order, and then only for a record. */
  lemma DecodeVerdict<V>(f: AtRestCodec.Format<V>, b: Data)
    ensures var r := AtRestCodec.Decode(f, b);
      if |b| < 3 then r == Err(AtRestCodec.ShortBuffer)
      else if b[0] != 1 then r == Err(AtRestCodec.UnknownVersion(b[0]))
      else if |b| != 3 + Get(b[1..3]) * (f.idSize + f.bodySize)
      then r == Err(AtRestCodec.LengthMismatch(3 + Get(b[1..3]) * (f.idSize + f.bodySize), |b|))
      else r.Ok? || r == Err(AtRestCodec.BadBody) || r == Err(AtRestCodec.DuplicateId)
  {
    if |b| >= 3 && |b| == 3 + Get(b[1..3]) * (f.idSize + f.bodySize) {
      AtRestCodec.TimesIs(Get(b[1..3]), f.Width());
      RecordsVerdict(f, b[3..], Get(b[1..3]), map[]);
    }
  }

  lemma {:induction false} RecordsVerdict<V>(f: AtRestCodec.Format<V>, b: Data, count: nat, m: map<Data, V>)
    requires |b| == AtRestCodec.Times(count, f.Width())
    ensures var r := AtRestCodec.ReadRecords(f, b, count, m);
      r.Ok? || r == Err(AtRestCodec.BadBody) || r == Err(AtRestCodec.DuplicateId)
    decreases count
  {
    if count > 0 {
      var id, body := b[..f.idSize], b[f.idSize..f.Width()];
      if f.get(body).Some? && id !in m {
        RecordsVerdict(f, b[f.Width()..], count - 1, m[id := f.get(body).value]);
      }
    }
  }
}
