/**
 Splitting a media blob into self-describing chunks and putting it together again
 (Core/Media/MediaChunker.swift, Core/Media/MediaManifest.swift). SHA-256 is a parameter.
 */
module MediaChunks {
  import opened Wrappers
  import opened BigEndian
  import Payload

  type Data = seq<nat>

  type Hash = Data -> string

  const HEADER: nat := 24
  const MAX_TOTAL_BYTES: nat := 16 * 1024 * 1024
  const MAX_CHUNK_COUNT: nat := 32768

  datatype Mime = Jpeg | M4a | Mp4

  /** What a manifest carries through unchanged. */
  datatype Meta = Meta(mime: Mime, sentAt: Option<int>, isStory: bool, isPushToTalk: bool)

  datatype Manifest = Manifest(mediaID: string, totalBytes: int, chunkCount: int, sha256: string, meta: Meta)

  datatype Parsed = Parsed(mediaID: Data, index: nat, total: nat, payload: Data)

  datatype Error =
    | InvalidBucket(size: int)
    | EmptyBlob
    | MalformedChunk
    | MissingChunks(expected: int, got: int)
    | InconsistentChunks
    | IntegrityFailure
    | ManifestOutOfBounds(chunkCount: int, totalBytes: int)

  datatype Chunker = Chunker(targetBucket: nat, reservedBytes: nat) {
    predicate Valid() {
      targetBucket in Payload.BUCKETS && HEADER + reservedBytes < targetBucket
    }

    /** Media bytes per chunk. */
    function Per(): (r: nat)
      requires Valid()
      ensures r > 0 && reservedBytes + HEADER + r == targetBucket
    {
      targetBucket - HEADER - reservedBytes
    }
  }

  /** Only a known bucket with room for at least one media byte makes a chunker. */
  function MakeChunker(targetBucket: nat, reservedBytes: int): (r: Result<Chunker, Error>)
    ensures r.Ok? <==> targetBucket in [256, 1024, 4096, 16384] && 0 <= reservedBytes < targetBucket - 24
    ensures r.Ok? ==> r.value.Valid() && r.value == Chunker(targetBucket, reservedBytes)
  {
    if targetBucket !in Payload.BUCKETS then Err(InvalidBucket(targetBucket))
    else if reservedBytes < 0 || targetBucket - HEADER - reservedBytes <= 0 then Err(InvalidBucket(targetBucket))
    else Ok(Chunker(targetBucket, reservedBytes))
  }

  predicate WithinBounds(m: Manifest) {
    1 <= m.chunkCount <= MAX_CHUNK_COUNT && 1 <= m.totalBytes <= MAX_TOTAL_BYTES && m.chunkCount <= m.totalBytes
  }

  // ----- Hexadecimal ids -----

  const DIGITS: string := "0123456789abcdef"

  function Hex(b: Data): string
    requires Bytes(b)
  {
    if b == [] then "" else Hex(b[..|b| - 1]) + [DIGITS[b[|b| - 1] / 16], DIGITS[b[|b| - 1] % 16]]
  }

  lemma DigitsDiffer(i: nat, j: nat)
    requires i < 16 && j < 16 && DIGITS[i] == DIGITS[j]
    ensures i == j
  {
  }

  lemma {:induction false} HexInjective(a: Data, b: Data)
    requires Bytes(a) && Bytes(b) && Hex(a) == Hex(b)
    ensures a == b
  {
    HexLength(a);
    HexLength(b);
    if a != [] {
      var n := |a| - 1;
      var x, y := a[n], b[n];
      var h := Hex(a);
      assert h[..2 * n] == Hex(a[..n]) && h[..2 * n] == Hex(b[..n]);
      HexInjective(a[..n], b[..n]);
      assert h[2 * n] == DIGITS[x / 16] == DIGITS[y / 16];
      assert h[2 * n + 1] == DIGITS[x % 16] == DIGITS[y % 16];
      DigitsDiffer(x / 16, y / 16);
      DigitsDiffer(x % 16, y % 16);
      assert a == a[..n] + [x] && b == b[..n] + [y];
    }
  }

  lemma {:induction false} HexLength(b: Data)
    requires Bytes(b)
    ensures |Hex(b)| == 2 * |b|
  {
    if b != [] {
      HexLength(b[..|b| - 1]);
    }
  }

  // ----- Splitting -----

  /** The blob in pieces of `per` bytes, the last one whatever is left. */
  function Carve(blob: Data, per: nat): (r: seq<Data>)
    requires per > 0
  {
    if blob == [] then []
    else if |blob| <= per then [blob]
    else [blob[..per]] + Carve(blob[per..], per)
  }

  function Join(pieces: seq<Data>): Data {
    if pieces == [] then [] else pieces[0] + Join(pieces[1..])
  }

  lemma {:induction false} JoinCarve(blob: Data, per: nat)
    requires per > 0
    ensures Join(Carve(blob, per)) == blob
  {
    if |blob| > per {
      JoinCarve(blob[per..], per);
      JoinCons(blob[..per], Carve(blob[per..], per));
    } else if blob != [] {
      JoinCons(blob, []);
      assert [blob] + [] == [blob];
    }
  }

  lemma JoinCons(p: Data, rest: seq<Data>)
    ensures Join([p] + rest) == p + Join(rest)
  {
    assert ([p] + rest)[1..] == rest;
  }

  /** Every piece but the last is full, and none is empty. */
  lemma {:induction false} CarveFills(blob: Data, per: nat, i: nat)
    requires per > 0 && i < |Carve(blob, per)|
    ensures var pieces := Carve(blob, per);
      0 < |pieces[i]| <= per && (i < |pieces| - 1 ==> |pieces[i]| == per)
  {
    if |blob| > per {
      assert Carve(blob[per..], per) != [];
      if i > 0 {
        CarveFills(blob[per..], per, i - 1);
      }
    }
  }

  lemma {:induction false} CarveCount(blob: Data, per: nat)
    requires per > 0
    ensures var n := |Carve(blob, per)|;
      n <= |blob| && (blob == [] <==> n == 0)
      && per * n >= |blob| && (n > 0 ==> per * (n - 1) < |blob|)
  {
    if |blob| > per {
      CarveCount(blob[per..], per);
      var n := |Carve(blob[per..], per)|;
      assert per * (n + 1) == per * n + per;
      assert per * n == per * (n - 1) + per;
    }
  }

  function ChunkOf(id: Data, index: nat, total: nat, payload: Data): Data {
    id + Put(index, 4) + Put(total, 4) + payload
  }

  function ManifestOf(hash: Hash, id: Data, blob: Data, count: nat, meta: Meta): Manifest
    requires Bytes(id)
  {
    Manifest(Hex(id), |blob|, count, hash(blob), meta)
  }

  /** Chunks are numbered pieces under a common header; an empty blob is refused. */
  method Split(chunker: Chunker, hash: Hash, blob: Data, id: Data, meta: Meta)
    returns (r: Result<(Manifest, seq<Data>), Error>)
    requires chunker.Valid() && Bytes(id) && |Carve(blob, chunker.Per())| < 0x1_0000_0000
    ensures r.Ok? <==> blob != [] && |id| == 16
    ensures r.Err? ==> r.error == if blob == [] then EmptyBlob else MalformedChunk
    ensures r.Ok? ==>
      var pieces, (m, chunks) := Carve(blob, chunker.Per()), r.value;
      && m == ManifestOf(hash, id, blob, |pieces|, meta) == Manifest(Hex(id), |blob|, |pieces|, hash(blob), meta)
      && |chunks| == |pieces|
      && forall i :: 0 <= i < |chunks| ==> chunks[i] == ChunkOf(id, i, |pieces|, pieces[i])
  {
    if blob == [] {
      return Err(EmptyBlob);
    }
    if |id| != 16 {
      return Err(MalformedChunk);
    }
    var per := chunker.Per();
    var payloads: seq<Data> := [];
    var offset := 0;
    while offset < |blob|
      invariant offset <= |blob|
      invariant payloads + Carve(blob[offset..], per) == Carve(blob, per)
    {
      var end := if offset + per <= |blob| then offset + per else |blob|;
      CarveStep(blob, per, offset, end);
      payloads := payloads + [blob[offset..end]];
      offset := end;
    }
    var total := |payloads|;
    var chunks: seq<Data> := [];
    for i := 0 to |payloads|
      invariant |chunks| == i
      invariant forall j :: 0 <= j < i ==> chunks[j] == ChunkOf(id, j, total, payloads[j])
    {
      chunks := chunks + [id + Put(i, 4) + Put(total, 4) + payloads[i]];
    }
    return Ok((Manifest(Hex(id), |blob|, |payloads|, hash(blob), meta), chunks));
  }

  lemma CarveStep(blob: Data, per: nat, offset: nat, end: nat)
    requires per > 0 && offset < |blob|
    requires end == if offset + per <= |blob| then offset + per else |blob|
    ensures Carve(blob[offset..], per) == [blob[offset..end]] + Carve(blob[end..], per)
  {
    var rest := blob[offset..];
    if |rest| > per {
      assert rest[..per] == blob[offset..end] && rest[per..] == blob[end..];
    } else {
      assert blob[offset..end] == rest && blob[end..] == [];
    }
  }

  // ----- Parsing and reassembling -----

  function Parse(chunk: Data): (r: Option<Parsed>)
    ensures r.Some? <==> |chunk| >= HEADER
  {
    if |chunk| < HEADER then None
    else Some(Parsed(chunk[..16], Get(chunk[16..20]), Get(chunk[20..24]), chunk[24..]))
  }

  lemma ParseChunk(id: Data, index: nat, total: nat, payload: Data)
    requires |id| == 16 && index < 0x1_0000_0000 && total < 0x1_0000_0000
    ensures Parse(ChunkOf(id, index, total, payload)) == Some(Parsed(id, index, total, payload))
  {
    Widths();
    GetPut(index, 4);
    GetPut(total, 4);
    var c := ChunkOf(id, index, total, payload);
    assert c[..16] == id && c[16..20] == Put(index, 4) && c[20..24] == Put(total, 4) && c[24..] == payload;
  }

  function ParseAll(chunks: seq<Data>): (r: seq<Parsed>)
    requires forall i :: 0 <= i < |chunks| ==> Parse(chunks[i]).Some?
    ensures |r| == |chunks|
  {
    seq(|chunks|, i requires 0 <= i < |chunks| => Parse(chunks[i]).value)
  }

  /** Later chunks of an index replace earlier ones. */
  function Place(parsed: seq<Parsed>, count: nat): (r: seq<Option<Data>>)
    requires forall i :: 0 <= i < |parsed| ==> parsed[i].index < count
    ensures |r| == count
  {
    if parsed == [] then seq(count, _ => None)
    else
      var n := |parsed| - 1;
      Place(parsed[..n], count)[parsed[n].index := Some(parsed[n].payload)]
  }

  function Present(slots: seq<Option<Data>>): (r: nat)
    ensures r <= |slots|
  {
    if slots == [] then 0 else Present(slots[1..]) + (if slots[0].Some? then 1 else 0)
  }

  function JoinSlots(slots: seq<Option<Data>>): Data
    requires forall i :: 0 <= i < |slots| ==> slots[i].Some?
  {
    if slots == [] then [] else slots[0].value + JoinSlots(slots[1..])
  }

  predicate Agree(parsed: seq<Parsed>, count: int) {
    forall i :: 0 <= i < |parsed| ==> parsed[i].mediaID == parsed[0].mediaID && parsed[i].total == count
  }

  predicate InRange(parsed: seq<Parsed>, count: int) {
    forall i :: 0 <= i < |parsed| ==> parsed[i].index < count
  }

  lemma {:induction false} AllPresent(slots: seq<Option<Data>>)
    ensures Present(slots) == |slots| <==> forall i :: 0 <= i < |slots| ==> slots[i].Some?
  {
    if slots != [] {
      AllPresent(slots[1..]);
      assert slots[0].Some? && (forall i :: 0 <= i < |slots[1..]| ==> slots[1..][i].Some?) ==>
        forall i :: 0 < i < |slots| ==> slots[i] == slots[1..][i - 1];
    }
  }

  /** The checks in the source's order, then the blob. */
  function Reassembled(hash: Hash, chunks: seq<Data>, m: Manifest): Result<Data, Error> {
    if !WithinBounds(m) then Err(ManifestOutOfBounds(m.chunkCount, m.totalBytes))
    else if exists i :: 0 <= i < |chunks| && Parse(chunks[i]).None? then Err(MalformedChunk)
    else
      var parsed := ParseAll(chunks);
      if parsed == [] then Err(MissingChunks(m.chunkCount, 0))
      else if !Agree(parsed, m.chunkCount) || !InRange(parsed, m.chunkCount) then Err(InconsistentChunks)
      else
        JoinChecked(hash, Place(parsed, m.chunkCount), m)
  }

  /** The source's loops: parse, compare, place, count, append. */
  method Reassemble(hash: Hash, chunks: seq<Data>, m: Manifest) returns (r: Result<Data, Error>)
    ensures r == Reassembled(hash, chunks, m)
  {
    if !WithinBounds(m) {
      return Err(ManifestOutOfBounds(m.chunkCount, m.totalBytes));
    }
    var parsed: seq<Parsed> := [];
    for i := 0 to |chunks|
      invariant forall j :: 0 <= j < i ==> Parse(chunks[j]).Some?
      invariant parsed == ParseAll(chunks[..i])
    {
      var p := Parse(chunks[i]);
      if p.None? {
        return Err(MalformedChunk);
      }
      parsed := parsed + [p.value];
    }
    assert chunks[..|chunks|] == chunks;
    r := PlaceParsed(hash, parsed, m);
  }

  method PlaceParsed(hash: Hash, parsed: seq<Parsed>, m: Manifest) returns (r: Result<Data, Error>)
    requires WithinBounds(m)
    ensures parsed == [] ==> r == Err(MissingChunks(m.chunkCount, 0))
    ensures parsed != [] && !(Agree(parsed, m.chunkCount) && InRange(parsed, m.chunkCount)) ==>
      r == Err(InconsistentChunks)
    ensures parsed != [] && Agree(parsed, m.chunkCount) && InRange(parsed, m.chunkCount) ==>
      r == JoinChecked(hash, Place(parsed, m.chunkCount), m)
  {
    if parsed == [] {
      return Err(MissingChunks(m.chunkCount, 0));
    }
    for i := 0 to |parsed|
      invariant forall j :: 0 <= j < i ==>
        parsed[j].mediaID == parsed[0].mediaID && parsed[j].total == parsed[0].total
    {
      if parsed[i].mediaID != parsed[0].mediaID || parsed[i].total != parsed[0].total {
        return Err(InconsistentChunks);
      }
    }
    if parsed[0].total != m.chunkCount {
      return Err(InconsistentChunks);
    }
    var slots: seq<Option<Data>> := seq(m.chunkCount, _ => None);
    for i := 0 to |parsed|
      invariant InRange(parsed[..i], m.chunkCount)
      invariant slots == Place(parsed[..i], m.chunkCount)
    {
      if parsed[i].index >= m.chunkCount {
        return Err(InconsistentChunks);
      }
      assert parsed[..i + 1][..i] == parsed[..i];
      slots := slots[parsed[i].index := Some(parsed[i].payload)];
    }
    assert parsed[..|parsed|] == parsed;
    r := JoinPlaced(hash, slots, m);
  }

  function JoinChecked(hash: Hash, slots: seq<Option<Data>>, m: Manifest): Result<Data, Error>
    requires |slots| == m.chunkCount
  {
    AllPresent(slots);
    if Present(slots) != m.chunkCount then Err(MissingChunks(m.chunkCount, Present(slots)))
    else if hash(JoinSlots(slots)) != m.sha256 then Err(IntegrityFailure)
    else Ok(JoinSlots(slots))
  }

  method JoinPlaced(hash: Hash, slots: seq<Option<Data>>, m: Manifest) returns (r: Result<Data, Error>)
    requires |slots| == m.chunkCount
    ensures r == JoinChecked(hash, slots, m)
  {
    var present := 0;
    for i := 0 to |slots|
      invariant present + Present(slots[i..]) == Present(slots)
    {
      assert slots[i..][1..] == slots[i + 1..];
      if slots[i].Some? {
        present := present + 1;
      }
    }
    if present != m.chunkCount {
      return Err(MissingChunks(m.chunkCount, present));
    }
    AllPresent(slots);
    var blob: Data := [];
    for i := 0 to |slots|
      invariant blob + JoinSlots(slots[i..]) == JoinSlots(slots)
    {
      assert slots[i..][1..] == slots[i + 1..];
      blob := blob + slots[i].value;
    }
    assert slots[|slots|..] == [] && blob + [] == blob;
    if hash(blob) != m.sha256 {
      return Err(IntegrityFailure);
    }
    return Ok(blob);
  }

  /** The indices the parseable chunks cover. */
  ghost function Seen(chunks: seq<Data>, count: int): set<nat> {
    set i | 0 <= i < |chunks| && Parse(chunks[i]).Some? && Parse(chunks[i]).value.index < count
      :: Parse(chunks[i]).value.index
  }

  /** Exactly the absent indices, in increasing order. */
  method MissingIndices(chunks: seq<Data>, m: Manifest) returns (r: seq<nat>)
    ensures !WithinBounds(m) ==> r == []
    ensures WithinBounds(m) ==> forall k: nat :: k in r <==> k < m.chunkCount && k !in Seen(chunks, m.chunkCount)
    ensures forall i, j :: 0 <= i < j < |r| ==> r[i] < r[j]
  {
    r := [];
    if !WithinBounds(m) {
      return;
    }
    var seen: set<nat> := {};
    for i := 0 to |chunks|
      invariant seen == Seen(chunks[..i], m.chunkCount)
    {
      SeenSnoc(chunks[..i], chunks[i], m.chunkCount);
      assert chunks[..i + 1] == chunks[..i] + [chunks[i]];
      var p := Parse(chunks[i]);
      if p.Some? && p.value.index < m.chunkCount {
        seen := seen + {p.value.index};
      }
    }
    assert chunks[..|chunks|] == chunks;
    for k := 0 to m.chunkCount
      invariant forall x: nat :: x in r <==> x < k && x !in seen
      invariant forall i :: 0 <= i < |r| ==> r[i] < k
      invariant forall i, j :: 0 <= i < j < |r| ==> r[i] < r[j]
    {
      if k !in seen {
        r := r + [k];
      }
    }
  }

  lemma SeenSnoc(chunks: seq<Data>, c: Data, count: int)
    ensures Seen(chunks + [c], count) == Seen(chunks, count)
      + (if Parse(c).Some? && Parse(c).value.index < count then {Parse(c).value.index} else {})
  {
    var all := chunks + [c];
    assert all[|chunks|] == c;
    forall k | k in Seen(chunks, count)
      ensures k in Seen(all, count)
    {
      var i :| 0 <= i < |chunks| && Parse(chunks[i]).Some? && Parse(chunks[i]).value.index == k;
      assert all[i] == chunks[i];
    }
  }
}
