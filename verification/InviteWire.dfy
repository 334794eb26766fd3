/**
 The nested invite wire format (Security/Session/Invite.swift around
 Security/Session/PairingPayload.swift): length-prefixed blobs behind version bytes.
 */
module InviteWire {
  import opened Wrappers
  import opened BigEndian
  import opened Contacts

  type Data = seq<nat>

  const LIMIT: nat := 0x1_0000_0000

  // ----- Length-prefixed blobs -----

  function PutBlob(blob: Data): Data {
    Put(|blob|, 4) + blob
  }

  /** A blob and what follows it, or nothing if either part runs past the end. */
  function GetBlob(b: Data): Option<(Data, Data)> {
    if |b| < 4 then None
    else
      var n := Get(b[..4]);
      if |b| < 4 + n then None else Some((b[4..4 + n], b[4 + n..]))
  }

  lemma BlobReads(blob: Data, rest: Data)
    requires |blob| < LIMIT
    ensures GetBlob(PutBlob(blob) + rest) == Some((blob, rest))
  {
    var b := PutBlob(blob) + rest;
    Widths();
    GetPut(|blob|, 4);
    assert b[..4] == Put(|blob|, 4);
    assert b[4..4 + |blob|] == blob && b[4 + |blob|..] == rest;
  }

  lemma BlobWrites(b: Data)
    requires Bytes(b) && GetBlob(b).Some?
    ensures var (blob, rest) := GetBlob(b).value;
      b == PutBlob(blob) + rest && |blob| < LIMIT && Bytes(blob) && Bytes(rest)
  {
    var n := Get(b[..4]);
    BytesSlice(b, 0, 4);
    BytesSlice(b, 4, 4 + n);
    BytesSlice(b, 4 + n, |b|);
    assert b[0..4] == b[..4] && b[4 + n..|b|] == b[4 + n..];
    PutGet(b[..4]);
    Widths();
    assert b == b[..4] + b[4..4 + n] + b[4 + n..];
  }

  lemma BytesSlice(b: Data, i: nat, j: nat)
    requires Bytes(b) && i <= j <= |b|
    ensures Bytes(b[i..j])
  {
  }

  // ----- The pairing payload -----

  datatype PairingPayload = PairingPayload(bundle: Data, nostrPublicKey: Option<Data>) {
    predicate WellFormed() {
      Bytes(bundle) && Bytes(Key()) && (nostrPublicKey.Some? ==> |Key()| == 32)
    }

    function Key(): Data { if nostrPublicKey.Some? then nostrPublicKey.value else [] }

    function Wire(): Data { [1] + PutBlob(bundle) + PutBlob(Key()) }
  }

  function ParsePairing(b: Data): Option<PairingPayload> {
    if b == [] || b[0] != 1 then None
    else
      match GetBlob(b[1..])
      case None => None
      case Some((bundle, rest)) =>
        match GetBlob(rest)
        case None => None
        case Some((key, tail)) =>
          if tail != [] then None
          else if key == [] then Some(PairingPayload(bundle, None))
          else if |key| == 32 then Some(PairingPayload(bundle, Some(key)))
          else None
  }

  /** Printing then parsing gives the payload back exactly when a present key has 32 bytes. */
  lemma PairingRoundTrip(p: PairingPayload)
    requires |p.bundle| < LIMIT && |p.Key()| < LIMIT
    ensures ParsePairing(p.Wire()) == Some(p) <==> (p.nostrPublicKey.Some? ==> |p.Key()| == 32)
  {
    var w := p.Wire();
    assert w[1..] == PutBlob(p.bundle) + PutBlob(p.Key());
    BlobReads(p.bundle, PutBlob(p.Key()));
    BlobReads(p.Key(), []);
    assert PutBlob(p.Key()) + [] == PutBlob(p.Key());
  }

  /** Only printed bytes parse. */
  lemma PairingOnto(b: Data)
    requires Bytes(b) && ParsePairing(b).Some?
    ensures var p := ParsePairing(b).value;
      p.WellFormed() && p.Wire() == b && |p.bundle| < LIMIT && |p.Key()| < LIMIT
  {
    BytesSlice(b, 1, |b|);
    assert b[1..|b|] == b[1..];
    TwoBlobs(b[1..]);
    assert b == [1] + b[1..];
    var p := ParsePairing(b).value;
    assert p.Wire() == [1] + (PutBlob(p.bundle) + PutBlob(p.Key()));
  }

  lemma TwoBlobs(b: Data)
    requires Bytes(b) && GetBlob(b).Some? && GetBlob(GetBlob(b).value.1).Some?
    requires GetBlob(GetBlob(b).value.1).value.1 == []
    ensures var bundle, key := GetBlob(b).value.0, GetBlob(GetBlob(b).value.1).value.0;
      && b == PutBlob(bundle) + PutBlob(key)
      && |bundle| < LIMIT && |key| < LIMIT && Bytes(bundle) && Bytes(key)
  {
    BlobWrites(b);
    var rest := GetBlob(b).value.1;
    BlobWrites(rest);
    assert PutBlob(GetBlob(rest).value.0) + [] == PutBlob(GetBlob(rest).value.0);
  }

  // ----- The invite -----

  datatype Invite = Invite(payload: PairingPayload, id: Data, mintedAt: Int64, expiresAt: Int64) {
    function Wire(): Data {
      [1] + id + PutInt64(mintedAt) + PutInt64(expiresAt) + PutBlob(payload.Wire())
    }
  }

  function ParseInvite(b: Data): Option<Invite>
    requires Bytes(b)
  {
    if b == [] || b[0] != 1 || |b| < 33 then None
    else
      match GetBlob(b[33..])
      case None => None
      case Some((inner, tail)) =>
        if tail != [] then None
        else
          match ParsePairing(inner)
          case None => None
          case Some(p) => Some(Invite(p, b[1..17], GetInt64(b[17..25]), GetInt64(b[25..33])))
  }

  lemma InviteFields(inv: Invite)
    requires |inv.id| == 16
    ensures var w := inv.Wire();
      && |w| >= 33 && w[0] == 1 && w[1..17] == inv.id && w[17..25] == PutInt64(inv.mintedAt)
      && w[25..33] == PutInt64(inv.expiresAt) && w[33..] == PutBlob(inv.payload.Wire())
  {
  }

  lemma WireBytes(inv: Invite)
    requires Bytes(inv.id) && Bytes(inv.payload.bundle) && Bytes(inv.payload.Key())
    ensures Bytes(inv.Wire())
  {
  }

  /** Exactly the invites with a 16-byte id and a 32-byte or absent key survive the trip. */
  lemma InviteRoundTrip(inv: Invite)
    requires Bytes(inv.id) && Bytes(inv.payload.bundle) && Bytes(inv.payload.Key()) && |inv.payload.Wire()| < LIMIT
    ensures Bytes(inv.Wire())
    ensures ParseInvite(inv.Wire()) == Some(inv) <==> |inv.id| == 16 && inv.payload.WellFormed()
  {
    var w, inner := inv.Wire(), inv.payload.Wire();
    WireBytes(inv);
    if |inv.id| == 16 {
      InviteFields(inv);
      BlobReads(inner, []);
      assert PutBlob(inner) + [] == PutBlob(inner);
      PairingRoundTrip(inv.payload);
      Int64RoundTrip(inv.mintedAt);
      Int64RoundTrip(inv.expiresAt);
    }
  }

  /** Only printed bytes parse. */
  lemma InviteOnto(b: Data)
    requires Bytes(b) && ParseInvite(b).Some?
    ensures ParseInvite(b).value.Wire() == b && |ParseInvite(b).value.id| == 16
  {
    var inv := ParseInvite(b).value;
    BlobWrites(b[33..]);
    var (inner, tail) := GetBlob(b[33..]).value;
    PairingOnto(inner);
    Int64Onto(b[17..25]);
    Int64Onto(b[25..33]);
    assert PutBlob(inner) + [] == PutBlob(inner);
    assert b == b[..1] + b[1..17] + b[17..25] + b[25..33] + b[33..];
    assert b[..1] == [1];
  }

  // ----- No valid wire starts another -----

  ghost predicate Prefix(a: Data, b: Data) {
    |a| <= |b| && b[..|a|] == a
  }

  /** A blob read from a prefix is the blob read from the whole. */
  lemma BlobPrefix(a: Data, b: Data)
    requires Prefix(a, b) && GetBlob(a).Some?
    ensures GetBlob(b).Some? && GetBlob(b).value.0 == GetBlob(a).value.0
    ensures Prefix(GetBlob(a).value.1, GetBlob(b).value.1)
  {
    assert a[..4] == b[..4];
    var n := Get(a[..4]);
    assert a[4..4 + n] == b[4..4 + n];
    assert b[..|a|][4 + n..] == a[4 + n..];
    var ra, rb := a[4 + n..], b[4 + n..];
    assert rb[..|ra|] == ra;
  }

  lemma PairingPrefixFree(a: Data, b: Data)
    requires Bytes(a) && Bytes(b) && ParsePairing(a).Some? && ParsePairing(b).Some? && Prefix(a, b)
    ensures a == b
  {
    assert a[0] == b[0];
    assert Prefix(a[1..], b[1..]) by {
      assert b[1..][..|a| - 1] == b[..|a|][1..];
    }
    BlobPrefix(a[1..], b[1..]);
    BlobPrefix(GetBlob(a[1..]).value.1, GetBlob(b[1..]).value.1);
    PairingOnto(a);
    PairingOnto(b);
  }

  /** No valid invite is a proper prefix of another. */
  lemma InvitePrefixFree(a: Data, b: Data)
    requires Bytes(a) && Bytes(b) && ParseInvite(a).Some? && ParseInvite(b).Some? && Prefix(a, b)
    ensures a == b
  {
    assert Prefix(a[33..], b[33..]) by {
      assert b[33..][..|a| - 33] == b[..|a|][33..];
    }
    BlobPrefix(a[33..], b[33..]);
    BlobWrites(a[33..]);
    BlobWrites(b[33..]);
    assert |a| == |b|;
  }
}
