/** Which transfers the receiver takes and completes, and what the pieces look like on the wire, in numbers. */
module MediaOutcomes {
  import opened Wrappers
  import opened BigEndian
  import opened MediaChunks
  import opened MediaReassembly

  // ----- Which manifests are taken -----

  /**
   A manifest is stored, or completes its transfer at once, exactly if it claims 1 to 32768
   chunks and at least as many bytes, up to 16 MiB; any other changes nothing.
   */
  lemma ManifestTakenExactly(hash: Hash, s: State, m: Manifest)
    ensures var (s', r) := IngestManifest(hash, s, m);
      if 1 <= m.chunkCount <= 32768 && m.chunkCount <= m.totalBytes <= 16777216
      then r.Some? || (r.None? && m.mediaID in s'.manifests && s'.manifests[m.mediaID] == m)
      else s' == s && r.None?
  {
  }

  lemma CountFits(per: nat, n: nat, size: nat)
    requires per > 0 && per * n >= size && (n > 0 ==> per * (n - 1) < size)
    ensures n <= 32768 <==> size <= 32768 * per
  {
    if n <= 32768 {
      assert per * n <= per * 32768;
    } else {
      assert per * (n - 1) >= per * 32768;
    }
  }

  /** The announcement of a blob is taken exactly if the blob has 1 byte to 16 MiB and fits 32768 chunks. */
  lemma AnnouncementTakenExactly(hash: Hash, s: State, chunker: Chunker, t: Transfer)
    requires chunker.Valid() && t.Valid() && t.per == chunker.targetBucket - 24 - chunker.reservedBytes
    ensures var (s', r) := IngestManifest(hash, s, t.Announcement(hash));
      if |t.blob| <= 16777216 && |t.blob| <= 32768 * t.per
      then r.Some? || (t.Key() in s'.manifests && s'.manifests[t.Key()] == t.Announcement(hash))
      else s' == s && r.None?
  {
    CarveCount(t.blob, t.per);
    CountFits(t.per, t.Count(), |t.blob|);
    ManifestTakenExactly(hash, s, t.Announcement(hash));
  }

  /** In the three larger buckets, with at most a tag byte reserved, that is every blob up to 16 MiB. */
  lemma LargeBucketsFit(hash: Hash, chunker: Chunker, t: Transfer)
    requires chunker.Valid() && chunker.targetBucket in [1024, 4096, 16384] && chunker.reservedBytes <= 1
    requires t.Valid() && t.per == chunker.targetBucket - 24 - chunker.reservedBytes && |t.blob| <= 16777216
    ensures WithinBounds(t.Announcement(hash)) && |t.blob| <= 32768 * t.per
  {
    CarveCount(t.blob, t.per);
    assert 32768 * t.per >= 32768 * 999;
    CountFits(t.per, t.Count(), |t.blob|);
  }

  // ----- A whole transfer sent -----

  ghost function GotBy(n: nat): set<Piece> {
    {TheManifest} + set k: nat | k < n :: TheChunk(k)
  }

  lemma GotByGrows(t: Transfer, n: nat)
    ensures GotBy(n) + {TheChunk(n)} == GotBy(n + 1)
    ensures n < t.Count() ==> !Whole(t, GotBy(n))
    ensures n == t.Count() ==> Whole(t, GotBy(n))
  {
    if n < t.Count() {
      assert TheChunk(n) !in GotBy(n);
    }
  }

  lemma GotSnoc(hash: Hash, arrivals: seq<Arrival>, a: Arrival, t: Transfer)
    requires Bytes(t.id)
    ensures Got(hash, arrivals + [a], t) == Collect(hash, Got(hash, arrivals, t), a, t)
  {
    assert (arrivals + [a])[..|arrivals|] == arrivals;
  }

  lemma ResendSnoc(before: seq<Arrival>, t: Transfer, n: nat)
    requires n < t.Count()
    ensures before + Resend(t, n + 1) == (before + Resend(t, n)) + [Chunked(t, n)]
    ensures before + Resend(t, 0) == before + [Announced(t)]
  {
  }

  lemma {:induction false} GotResent(hash: Hash, before: seq<Arrival>, t: Transfer, n: nat)
    requires t.Valid() && n < t.Count() && WithinBounds(t.Announcement(hash)) && Got(hash, before, t) == {}
    ensures Got(hash, before + Resend(t, n), t) == GotBy(n)
  {
    if n == 0 {
      ResendSnoc(before, t, 0);
      GotSnoc(hash, before, Announced(t), t);
      GotByGrows(t, 0);
      assert {} + {TheManifest} == GotBy(0);
    } else {
      GotResent(hash, before, t, n - 1);
      ResendSnoc(before, t, n - 1);
      GotSnoc(hash, before + Resend(t, n - 1), Chunked(t, n - 1), t);
      GotByGrows(t, n - 1);
      GotByGrows(t, n);
    }
  }

  lemma LastChunkMissing(hash: Hash, before: seq<Arrival>, t: Transfer, all: seq<Arrival>)
    requires t.Valid() && WithinBounds(t.Announcement(hash)) && Got(hash, before, t) == {}
    requires all == before + Resend(t, t.Count())
    ensures all != [] && LastMissing(hash, all, t, |all| - 1)
  {
    var n := t.Count();
    CarveCount(t.blob, t.per);
    GotUpToLast(hash, before, t, all);
    GotByGrows(t, n - 1);
    GotByGrows(t, n);
  }

  lemma GotUpToLast(hash: Hash, before: seq<Arrival>, t: Transfer, all: seq<Arrival>)
    requires t.Valid() && WithinBounds(t.Announcement(hash)) && Got(hash, before, t) == {} && t.Count() > 0
    requires all == before + Resend(t, t.Count())
    ensures var last := |all| - 1;
      all[last] == Chunked(t, t.Count() - 1) && Got(hash, all[..last], t) == GotBy(t.Count() - 1)
  {
    var n := t.Count();
    ResendSnoc(before, t, n - 1);
    assert all[..|all| - 1] == before + Resend(t, n - 1);
    GotResent(hash, before, t, n - 1);
  }

  lemma ResentUntouched(ts: set<Transfer>, before: seq<Arrival>, t: Transfer, all: seq<Arrival>)
    requires Sent(ts) && AllLegal(ts, before) && t in ts && Untouched(before, t)
    requires all == before + Resend(t, t.Count())
    ensures AllLegal(ts, all) && Untouched(all, t)
  {
    ResendLegal(ts, t, t.Count());
  }

  /**
   After any arrivals, none forged under its id and no piece of it pending: a blob of 1 byte
   to 16 MiB in one of the larger buckets, sent as its announcement and then its chunks, is
   handed on with its own bytes by the last of them.
   */
  lemma SendingCompletes(hash: Hash, ts: set<Transfer>, before: seq<Arrival>, chunker: Chunker, t: Transfer, all: seq<Arrival>)
    requires Sent(ts) && AllLegal(ts, before) && t in ts && Untouched(before, t) && Got(hash, before, t) == {}
    requires chunker.Valid() && chunker.targetBucket in [1024, 4096, 16384] && chunker.reservedBytes <= 1
    requires t.per == chunker.targetBucket - 24 - chunker.reservedBytes && |t.blob| <= 16777216
    requires all == before + Resend(t, t.Count())
    ensures AllLegal(ts, all)
    ensures Output(hash, ts, all, |all| - 1) == Some(Completed(t.Key(), t.blob, t.meta))
  {
    LargeBucketsFit(hash, chunker, t);
    LastChunkMissing(hash, before, t, all);
    ResentUntouched(ts, before, t, all);
    LastCompletes(hash, ts, all, |all| - 1, t);
  }

  lemma LastCompletes(hash: Hash, ts: set<Transfer>, all: seq<Arrival>, i: nat, t: Transfer)
    requires Sent(ts) && AllLegal(ts, all) && t in ts && Untouched(all, t) && i < |all| && LastMissing(hash, all, t, i)
    ensures Output(hash, ts, all, i) == Some(Completed(t.Key(), t.blob, t.meta))
  {
    CompletesExactly(hash, ts, all, i, t);
  }

  // ----- The verdict on a set of chunks -----

  lemma {:induction false} PlaceCovers(parsed: seq<Parsed>, count: nat, k: nat)
    requires InRange(parsed, count) && k < count
    ensures Place(parsed, count)[k].Some? <==> exists i :: 0 <= i < |parsed| && parsed[i].index == k
  {
    if parsed != [] {
      var n := |parsed| - 1;
      PlaceCovers(parsed[..n], count, k);
      assert forall i :: 0 <= i < n ==> parsed[..n][i] == parsed[i];
    }
  }

  ghost predicate Odd(chunks: seq<Data>, m: Manifest) {
    exists i :: 0 <= i < |chunks| && Parse(chunks[i]).Some? && Parse(chunks[0]).Some?
      && (Parse(chunks[i]).value.mediaID != Parse(chunks[0]).value.mediaID
          || Parse(chunks[i]).value.total != m.chunkCount || Parse(chunks[i]).value.index >= m.chunkCount)
  }

  ghost predicate Covers(chunks: seq<Data>, k: nat) {
    exists i :: 0 <= i < |chunks| && Parse(chunks[i]).Some? && Parse(chunks[i]).value.index == k
  }

  /**
   The refusals in their order: the manifest's bounds, a chunk under 24 bytes, no chunk at
   all, a chunk of another id, total or range, an index nobody brought; then the hash decides.
   */
  lemma ReassembleVerdict(hash: Hash, chunks: seq<Data>, m: Manifest)
    ensures var r := Reassembled(hash, chunks, m);
      if !(1 <= m.chunkCount <= 32768 && m.chunkCount <= m.totalBytes <= 16777216)
      then r == Err(ManifestOutOfBounds(m.chunkCount, m.totalBytes))
      else if exists i :: 0 <= i < |chunks| && |chunks[i]| < 24 then r == Err(MalformedChunk)
      else if chunks == [] then r == Err(MissingChunks(m.chunkCount, 0))
      else if Odd(chunks, m) then r == Err(InconsistentChunks)
      else if exists k: nat :: k < m.chunkCount && !Covers(chunks, k)
      then r.Err? && r.error.MissingChunks? && r.error.expected == m.chunkCount && r.error.got < m.chunkCount
      else r == Err(IntegrityFailure) || (r.Ok? && hash(r.value) == m.sha256)
  {
    if WithinBounds(m) && chunks != [] && (forall i :: 0 <= i < |chunks| ==> |chunks[i]| >= 24) {
      OddIsRefused(chunks, m);
      if !Odd(chunks, m) {
        CoveredIsPresent(chunks, m);
      }
    }
  }

  lemma OddIsRefused(chunks: seq<Data>, m: Manifest)
    requires chunks != [] && forall i :: 0 <= i < |chunks| ==> Parse(chunks[i]).Some?
    ensures var parsed := ParseAll(chunks);
      Odd(chunks, m) <==> !Agree(parsed, m.chunkCount) || !InRange(parsed, m.chunkCount)
  {
    var parsed := ParseAll(chunks);
    assert forall i :: 0 <= i < |chunks| ==> parsed[i] == Parse(chunks[i]).value;
  }

  lemma CoveredIsPresent(chunks: seq<Data>, m: Manifest)
    requires m.chunkCount >= 1 && forall i :: 0 <= i < |chunks| ==> Parse(chunks[i]).Some?
    requires InRange(ParseAll(chunks), m.chunkCount)
    ensures var slots := Place(ParseAll(chunks), m.chunkCount);
      Present(slots) == m.chunkCount <==> forall k: nat :: k < m.chunkCount ==> Covers(chunks, k)
  {
    var parsed := ParseAll(chunks);
    var slots := Place(parsed, m.chunkCount);
    AllPresent(slots);
    forall k: nat | k < m.chunkCount
      ensures slots[k].Some? <==> Covers(chunks, k)
    {
      PlaceCovers(parsed, m.chunkCount, k);
      if Covers(chunks, k) {
        var i :| 0 <= i < |chunks| && Parse(chunks[i]).Some? && Parse(chunks[i]).value.index == k;
        assert parsed[i].index == k;
      }
    }
  }

  // ----- The bytes of a chunk -----

  lemma FourBytes(v: nat)
    requires v < 0x1_0000_0000
    ensures var b := Put(v, 4);
      0x100_0000 * b[0] + 0x1_0000 * b[1] + 0x100 * b[2] + b[3] == v
  {
    var b := Put(v, 4);
    Widths();
    GetPut(v, 4);
    FourRead(b);
  }

  lemma FourRead(b: seq<nat>)
    requires |b| == 4
    ensures Get(b) == 0x100_0000 * b[0] + 0x1_0000 * b[1] + 0x100 * b[2] + b[3]
  {
    var b3, b2, b1 := b[..3], b[..2], b[..1];
    assert b3[..2] == b2 && b2[..1] == b1 && b1[..0] == [];
    assert Get(b1) == b[0];
    assert Get(b2) == 0x100 * b[0] + b[1];
    assert Get(b3) == 0x100 * Get(b2) + b[2];
  }

  /** Id, then index and total in four bytes each, most significant first, then the payload. */
  lemma ChunkLayout(id: Data, index: nat, total: nat, payload: Data)
    requires |id| == 16 && index < 0x1_0000_0000 && total < 0x1_0000_0000
    ensures var c := ChunkOf(id, index, total, payload);
      && |c| == 24 + |payload| && c[..16] == id && c[24..] == payload
      && 0x100_0000 * c[16] + 0x1_0000 * c[17] + 0x100 * c[18] + c[19] == index
      && 0x100_0000 * c[20] + 0x1_0000 * c[21] + 0x100 * c[22] + c[23] == total
  {
    var c := ChunkOf(id, index, total, payload);
    FourBytes(index);
    FourBytes(total);
    assert c[16..20] == Put(index, 4) && c[20..24] == Put(total, 4);
    assert forall j :: 0 <= j < 4 ==> c[16 + j] == c[16..20][j] && c[20 + j] == c[20..24][j];
  }

  /** Every 24 bytes or more are read as a chunk by the same layout. */
  lemma ChunkRead(c: Data)
    ensures Parse(c).Some? <==> |c| >= 24
    ensures |c| >= 24 ==>
      var p := Parse(c).value;
      && p.mediaID == c[..16] && p.payload == c[24..]
      && p.index == 0x100_0000 * c[16] + 0x1_0000 * c[17] + 0x100 * c[18] + c[19]
      && p.total == 0x100_0000 * c[20] + 0x1_0000 * c[21] + 0x100 * c[22] + c[23]
  {
    if |c| >= 24 {
      FourRead(c[16..20]);
      FourRead(c[20..24]);
    }
  }

  function HexDigit(d: nat): int
    requires d < 16
  {
    if d < 10 then d + 48 else d + 87
  }

  lemma DigitIs(d: nat)
    requires d < 16
    ensures DIGITS[d] as int == HexDigit(d)
  {
  }

  /** An id's key is two lower-case hexadecimal digits a byte, high half first. */
  lemma {:induction false} HexDigits(b: Data, i: nat)
    requires Bytes(b) && i < |b|
    ensures |Hex(b)| == 2 * |b|
    ensures Hex(b)[2 * i] as int == HexDigit(b[i] / 16) && Hex(b)[2 * i + 1] as int == HexDigit(b[i] % 16)
  {
    HexLength(b);
    HexLength(b[..|b| - 1]);
    DigitIs(b[i] / 16);
    DigitIs(b[i] % 16);
    if i < |b| - 1 {
      HexDigits(b[..|b| - 1], i);
    }
  }
}
