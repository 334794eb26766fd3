/**
 Tagged payloads and their padding (Core/Media/MessagePayload.swift,
 Core/Media/PayloadPadding.swift, the bucket ladder of Core/Models/Envelope.swift).
 */
module Payload {
  import opened Wrappers
  import opened BigEndian

  type Data = seq<nat>

  const BUCKETS: seq<nat> := [256, 1024, 4096, 16384]
  const LARGEST: nat := 16384
  const HEADER: nat := 4

  // ----- Padding -----

  function PaddedSize(n: nat): nat {
    if n <= 256 then 256 else if n <= 1024 then 1024 else if n <= 4096 then 4096 else if n <= 16384 then 16384
    else (n + LARGEST - 1) / LARGEST * LARGEST
  }

  /** The sizes an observer may see. */
  predicate OnGrid(size: nat) {
    size == 256 || size == 1024 || size == 4096 || (size > 0 && size % 16384 == 0)
  }

  lemma Multiples(n: nat, s: nat)
    requires s % LARGEST == 0 && s >= n
    ensures (n + LARGEST - 1) / LARGEST * LARGEST <= s
    ensures (n + LARGEST - 1) / LARGEST * LARGEST >= n
    ensures (n + LARGEST - 1) / LARGEST * LARGEST % LARGEST == 0
  {
    var q, p := (n + 16383) / 16384, s / 16384;
    assert n + 16383 == 16384 * q + (n + 16383) % 16384;
    assert s == 16384 * p;
    assert q <= p;
  }

  /** The padded size is the least grid size that holds the content. */
  lemma PaddedSizeLeast(n: nat, s: nat)
    ensures OnGrid(PaddedSize(n)) && PaddedSize(n) >= n
    ensures OnGrid(s) && s >= n ==> PaddedSize(n) <= s
  {
    Multiples(n, (n + 1) * LARGEST);
    if s % LARGEST == 0 && s >= n {
      Multiples(n, s);
    }
    assert forall b :: b in BUCKETS ==> b == 256 || b == 1024 || b == 4096 || b == 16384;
    assert BUCKETS[0] == 256 && BUCKETS[1] == 1024 && BUCKETS[2] == 4096 && BUCKETS[3] == 16384;
  }

  /** The length header wraps at 32 bits, as `truncatingIfNeeded` does. */
  function Pad(payload: Data): (r: Data)
    ensures |r| == PaddedSize(HEADER + |payload|)
    ensures r[..HEADER] == Put(|payload| % 0x1_0000_0000, 4)
    ensures r[HEADER..HEADER + |payload|] == payload
  {
    var target := PaddedSize(HEADER + |payload|);
    PaddedSizeLeast(HEADER + |payload|, 0);
    Put(|payload| % 0x1_0000_0000, 4) + payload + Zeros(target - HEADER - |payload|)
  }

  function Unpad(padded: Data): (r: Option<Data>) {
    if |padded| < HEADER then None
    else
      var n := Get(padded[..HEADER]);
      if |padded| < HEADER + n then None else Some(padded[HEADER..HEADER + n])
  }

  /** What comes back is the payload's first so many bytes, where the header counts them. */
  lemma UnpadPad(x: Data)
    ensures Unpad(Pad(x)) == Some(x[..|x| % 0x1_0000_0000])
  {
    var n := |x| % 0x1_0000_0000;
    Widths();
    GetPut(n, 4);
    PaddedSizeLeast(HEADER + |x|, 0);
    var p := Pad(x);
    assert p[HEADER..HEADER + |x|][..n] == p[HEADER..HEADER + n];
  }

  /** Padding is undone exactly below 4 GiB. */
  lemma PaddingRoundTrip(x: Data)
    ensures Unpad(Pad(x)) == Some(x) <==> |x| < 0x1_0000_0000
  {
    UnpadPad(x);
    if |x| < 0x1_0000_0000 {
      assert x[..|x|] == x;
    } else {
      assert |x[..|x| % 0x1_0000_0000]| < |x|;
    }
  }

  // ----- Kinds -----

  datatype Kind =
    | Text | MediaManifest | MediaChunk | Ack | NostrIdentity | ReconnectHello | InviteEcho
    | CallRequest | CallAnswer | CallDecline | InviteEchoV2 | PttOpen | PttClose
  {
    function Tag(): (r: nat)
      ensures KindOf(r) == Some(this)
    {
      match this
      case Text => 1
      case MediaManifest => 2
      case MediaChunk => 3
      case Ack => 4
      case NostrIdentity => 5
      case ReconnectHello => 6
      case InviteEcho => 7
      case CallRequest => 8
      case CallAnswer => 9
      case CallDecline => 10
      case InviteEchoV2 => 11
      case PttOpen => 12
      case PttClose => 13
    }

    predicate Media() { MediaManifest? || MediaChunk? }
  }

  function KindOf(tag: nat): (r: Option<Kind>)
    ensures r.Some? <==> 1 <= tag <= 13
    ensures r.Some? && r.value.Media() <==> tag == 2 || tag == 3
  {
    match tag
    case 1 => Some(Text)
    case 2 => Some(MediaManifest)
    case 3 => Some(MediaChunk)
    case 4 => Some(Ack)
    case 5 => Some(NostrIdentity)
    case 6 => Some(ReconnectHello)
    case 7 => Some(InviteEcho)
    case 8 => Some(CallRequest)
    case 9 => Some(CallAnswer)
    case 10 => Some(CallDecline)
    case 11 => Some(InviteEchoV2)
    case 12 => Some(PttOpen)
    case 13 => Some(PttClose)
    case _ => None
  }

  datatype MessagePayload = MessagePayload(kind: Kind, body: Data) {
    /** The two kinds whose body length the decoder insists on. */
    predicate WellFormed() {
      (kind.PttOpen? ==> |body| == 48) && (kind.PttClose? ==> |body| == 16)
    }

    function Encoded(): (r: Data) {
      [kind.Tag()] + body
    }

    function SealedPlaintext(): (r: Data) {
      if kind.Media() then Encoded() else Pad(Encoded())
    }
  }

  function Decode(data: Data): (r: Option<MessagePayload>) {
    if data == [] || KindOf(data[0]).None? then None
    else
      var p := MessagePayload(KindOf(data[0]).value, data[1..]);
      if p.WellFormed() then Some(p) else None
  }

  function DecodeSealed(plaintext: Data): (r: Option<MessagePayload>) {
    if plaintext != [] && (plaintext[0] == 2 || plaintext[0] == 3) then Decode(plaintext)
    else
      match Unpad(plaintext)
      case None => None
      case Some(unpadded) => Decode(unpadded)
  }

  lemma DecodeEncoded(p: MessagePayload)
    ensures Decode(p.Encoded()) == if p.WellFormed() then Some(p) else None
  {
    assert p.Encoded()[1..] == p.body;
  }

  /** The first sealed byte of a padded payload is the top byte of its length. */
  lemma TopByte(n: nat)
    ensures Put(n % 0x1_0000_0000, 4)[0] == n / 0x100_0000 % 256
  {
    var m := n % 0x1_0000_0000;
    FirstOfFour(m);
    ThriceDivided(m);
    TopOfLow(n);
  }

  lemma FirstOfFour(m: nat)
    ensures Put(m, 4)[0] == m / 256 / 256 / 256 % 256
  {
    assert Put(m, 4)[0] == Put(m / 256, 3)[0];
    assert Put(m / 256, 3)[0] == Put(m / 256 / 256, 2)[0];
    assert Put(m / 256 / 256, 2)[0] == Put(m / 256 / 256 / 256, 1)[0];
  }

  lemma ThriceDivided(m: nat)
    ensures m / 256 / 256 / 256 == m / 0x100_0000
  {
    var a, b, c := m / 256, m / 256 / 256, m / 256 / 256 / 256;
    assert m == 256 * a + m % 256 && a == 256 * b + a % 256 && b == 256 * c + b % 256;
    assert 0x100_0000 * c <= m < 0x100_0000 * (c + 1);
  }

  lemma TopOfLow(n: nat)
    ensures n % 0x1_0000_0000 / 0x100_0000 % 256 == n / 0x100_0000 % 256
  {
    var k, m := n / 0x1_0000_0000, n % 0x1_0000_0000;
    var c := m / 0x100_0000;
    assert n == 0x100_0000 * (256 * k + c) + m % 0x100_0000;
    assert n / 0x100_0000 == 256 * k + c;
  }

  lemma SealedFirst(p: MessagePayload)
    requires !p.kind.Media()
    ensures p.SealedPlaintext() != []
    ensures p.SealedPlaintext()[0] == (1 + |p.body|) / 0x100_0000 % 256
  {
    var x := p.Encoded();
    PaddedSizeLeast(HEADER + |x|, 0);
    TopByte(|x|);
    assert Pad(x)[0] == Pad(x)[..HEADER][0];
  }

  /** The tag scan misreads a padded payload exactly when its length's top byte is a media tag. */
  predicate Misread(p: MessagePayload) {
    !p.kind.Media() && var top := (1 + |p.body|) / 0x100_0000 % 256; top == 2 || top == 3
  }

  lemma MisreadAsMedia(p: MessagePayload)
    requires Misread(p)
    ensures DecodeSealed(p.SealedPlaintext()).Some? && DecodeSealed(p.SealedPlaintext()).value.kind.Media()
  {
    SealedFirst(p);
  }

  lemma UnpadsToPrefix(p: MessagePayload)
    requires !p.kind.Media() && !Misread(p)
    ensures DecodeSealed(p.SealedPlaintext()) == Decode(p.Encoded()[..(1 + |p.body|) % 0x1_0000_0000])
  {
    SealedFirst(p);
    UnpadPad(p.Encoded());
  }

  lemma ShortPrefixDiffers(p: MessagePayload, n: nat)
    requires n < 1 + |p.body|
    ensures Decode(p.Encoded()[..n]) != Some(p)
  {
    var d := p.Encoded()[..n];
    if d != [] && KindOf(d[0]).Some? {
      assert |d[1..]| == n - 1;
    }
  }

  lemma ShortRoundTrip(p: MessagePayload)
    requires !p.kind.Media() && !Misread(p) && 1 + |p.body| < 0x1_0000_0000
    ensures DecodeSealed(p.SealedPlaintext()) == Some(p) <==> p.WellFormed()
  {
    UnpadsToPrefix(p);
    DecodeEncoded(p);
    assert p.Encoded()[..1 + |p.body|] == p.Encoded();
  }

  lemma LongLost(p: MessagePayload)
    requires !p.kind.Media() && !Misread(p) && 1 + |p.body| >= 0x1_0000_0000
    ensures DecodeSealed(p.SealedPlaintext()) != Some(p)
  {
    UnpadsToPrefix(p);
    ShortPrefixDiffers(p, (1 + |p.body|) % 0x1_0000_0000);
  }

  lemma PaddedRoundTrip(p: MessagePayload)
    requires !p.kind.Media() && !Misread(p)
    ensures DecodeSealed(p.SealedPlaintext()) == Some(p) <==> p.WellFormed() && 1 + |p.body| < 0x1_0000_0000
  {
    if 1 + |p.body| < 0x1_0000_0000 {
      ShortRoundTrip(p);
    } else {
      LongLost(p);
    }
  }

  lemma MediaRoundTrip(p: MessagePayload)
    requires p.kind.Media()
    ensures DecodeSealed(p.SealedPlaintext()) == Some(p)
  {
    DecodeEncoded(p);
    assert p.Encoded()[0] == p.kind.Tag();
  }

  /** Below 32 bits the header's top byte is the length's own. */
  lemma MisreadExactly(p: MessagePayload)
    requires !p.kind.Media() && 1 + |p.body| < 0x1_0000_0000
    ensures Misread(p) <==> var top := (1 + |p.body|) / 0x100_0000; top == 2 || top == 3
  {
    assert (1 + |p.body|) / 0x100_0000 < 256;
  }

  /**
   Decoding inverts sealing exactly when the body has the length its kind demands and,
   for a padded kind, the length fits 32 bits and its top byte is not a media tag.
   */
  lemma SealedRoundTrip(p: MessagePayload)
    ensures var n := 1 + |p.body|;
      DecodeSealed(p.SealedPlaintext()) == Some(p) <==>
        p.WellFormed() && (p.kind.Media() || (n < 0x1_0000_0000 && n / 0x100_0000 != 2 && n / 0x100_0000 != 3))
  {
    if p.kind.Media() {
      MediaRoundTrip(p);
    } else {
      if 1 + |p.body| < 0x1_0000_0000 {
        MisreadExactly(p);
      }
      if Misread(p) {
        MisreadAsMedia(p);
      } else {
        PaddedRoundTrip(p);
      }
    }
  }

  /** Every well-formed payload under 32 MiB comes back. */
  lemma SmallPayloadsRoundTrip(p: MessagePayload)
    requires p.WellFormed() && 1 + |p.body| < 0x200_0000
    ensures DecodeSealed(p.SealedPlaintext()) == Some(p)
  {
    SealedRoundTrip(p);
  }
}
