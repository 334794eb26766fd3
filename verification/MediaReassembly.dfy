/**
 The receiver of chunked media (Core/Media/MediaReassembler.swift): pieces of several
 transfers arrive interleaved, reordered and duplicated.
 */
module MediaReassembly {
  import opened Wrappers
  import opened BigEndian
  import opened MediaChunks

  datatype Completed = Completed(mediaID: string, data: Data, meta: Meta)

  datatype State = State(manifests: map<string, Manifest>, chunks: map<string, seq<Data>>)

  const Start := State(map[], map[])

  function Have(s: State, id: string): seq<Data> {
    if id in s.chunks then s.chunks[id] else []
  }

  ghost predicate Gaps(chunks: seq<Data>, m: Manifest) {
    WithinBounds(m) && exists k: nat :: k < m.chunkCount && k !in Seen(chunks, m.chunkCount)
  }

  ghost function TryComplete(hash: Hash, s: State, id: string): (State, Option<Completed>) {
    if id !in s.manifests then (s, None)
    else
      var m, have := s.manifests[id], Have(s, id);
      if Gaps(have, m) then (s, None)
      else
        match Reassembled(hash, have, m)
        case Err(_) => (s, None)
        case Ok(blob) => (State(s.manifests - {id}, s.chunks - {id}), Some(Completed(id, blob, m.meta)))
  }

  ghost function IngestManifest(hash: Hash, s: State, m: Manifest): (State, Option<Completed>) {
    if !WithinBounds(m) then (s, None)
    else TryComplete(hash, s.(manifests := s.manifests[m.mediaID := m]), m.mediaID)
  }

  ghost function IngestChunk(hash: Hash, s: State, chunk: Data): (State, Option<Completed>)
    requires Bytes(chunk)
  {
    match Parse(chunk)
    case None => (s, None)
    case Some(p) =>
      var id := Hex(p.mediaID);
      TryComplete(hash, s.(chunks := s.chunks[id := Have(s, id) + [chunk]]), id)
  }

  class MediaReassembler {
    var manifests: map<string, Manifest>
    var chunks: map<string, seq<Data>>

    ghost function View(): State
      reads this
    {
      State(manifests, chunks)
    }

    constructor ()
      ensures View() == Start
    {
      manifests, chunks := map[], map[];
    }

    method Announce(hash: Hash, m: Manifest) returns (r: Option<Completed>)
      modifies this
      ensures (View(), r) == IngestManifest(hash, old(View()), m)
    {
      if !WithinBounds(m) {
        return None;
      }
      manifests := manifests[m.mediaID := m];
      r := Finish(hash, m.mediaID);
    }

    method Arrive(hash: Hash, chunk: Data) returns (r: Option<Completed>)
      requires Bytes(chunk)
      modifies this
      ensures (View(), r) == IngestChunk(hash, old(View()), chunk)
    {
      var p := Parse(chunk);
      if p.None? {
        return None;
      }
      var id := Hex(p.value.mediaID);
      chunks := chunks[id := (if id in chunks then chunks[id] else []) + [chunk]];
      r := Finish(hash, id);
    }

    method Finish(hash: Hash, id: string) returns (r: Option<Completed>)
      modifies this
      ensures (View(), r) == TryComplete(hash, old(View()), id)
    {
      if id !in manifests {
        return None;
      }
      var m := manifests[id];
      var have := if id in chunks then chunks[id] else [];
      var missing := MissingIndices(have, m);
      assert missing != [] <==> Gaps(have, m) by {
        if missing != [] {
          assert missing[0] in missing;
        }
      }
      if missing != [] {
        return None;
      }
      var blob := Reassemble(hash, have, m);
      if blob.Err? {
        return None;
      }
      manifests, chunks := manifests - {id}, chunks - {id};
      return Some(Completed(id, blob.value, m.meta));
    }
  }

  // ----- Transfers as senders make them -----

  datatype Transfer = Transfer(id: Data, blob: Data, per: nat, meta: Meta) {
    ghost predicate Valid() {
      Bytes(id) && |id| == 16 && Bytes(blob) && blob != [] && per > 0 && Count() < 0x1_0000_0000
    }

    function Pieces(): seq<Data> { if per > 0 then Carve(blob, per) else [] }

    function Count(): nat { |Pieces()| }

    function Key(): string
      requires Bytes(id)
    {
      Hex(id)
    }

    function Announcement(hash: Hash): Manifest
      requires Bytes(id)
    {
      ManifestOf(hash, id, blob, Count(), meta)
    }

    function Chunk(k: nat): Data
      requires k < Count()
    {
      ChunkOf(id, k, Count(), Pieces()[k])
    }

    /** What a parsed chunk of this transfer looks like. */
    ghost predicate Honest(c: Data) {
      Parse(c).Some? && var p := Parse(c).value;
        p.index < Count() && p == Parsed(id, p.index, Count(), Pieces()[p.index])
    }
  }

  lemma ChunkIsHonest(t: Transfer, k: nat)
    requires t.Valid() && k < t.Count()
    ensures t.Honest(t.Chunk(k)) && Parse(t.Chunk(k)).value.index == k
  {
    ParseChunk(t.id, k, t.Count(), t.Pieces()[k]);
  }

  ghost predicate AllHonest(t: Transfer, chunks: seq<Data>) {
    forall i :: 0 <= i < |chunks| ==> t.Honest(chunks[i])
  }

  /** Whatever the order and the duplicates, each slot holds its own piece. */
  lemma {:induction false} PlaceHonest(t: Transfer, parsed: seq<Parsed>, k: nat)
    requires t.Valid() && k < t.Count()
    requires forall i :: 0 <= i < |parsed| ==> parsed[i].index < t.Count() && parsed[i].payload == t.Pieces()[parsed[i].index]
    ensures Place(parsed, t.Count())[k] ==
      if exists i :: 0 <= i < |parsed| && parsed[i].index == k then Some(t.Pieces()[k]) else None
  {
    if parsed != [] {
      var n := |parsed| - 1;
      PlaceHonest(t, parsed[..n], k);
      if exists i :: 0 <= i < n && parsed[i].index == k {
        var i :| 0 <= i < n && parsed[i].index == k;
        assert parsed[..n][i].index == k;
      }
    }
  }

  lemma {:induction false} JoinSlotsIs(slots: seq<Option<Data>>, pieces: seq<Data>)
    requires |slots| == |pieces| && forall i :: 0 <= i < |slots| ==> slots[i] == Some(pieces[i])
    ensures JoinSlots(slots) == Join(pieces)
  {
    if slots != [] {
      JoinSlotsIs(slots[1..], pieces[1..]);
    }
  }

  lemma CoveredSlot(t: Transfer, chunks: seq<Data>, k: nat)
    requires t.Valid() && AllHonest(t, chunks) && k < t.Count() && k in Seen(chunks, t.Count())
    ensures InRange(ParseAll(chunks), t.Count()) && Place(ParseAll(chunks), t.Count())[k] == Some(t.Pieces()[k])
  {
    var parsed := ParseAll(chunks);
    var i :| 0 <= i < |chunks| && Parse(chunks[i]).Some? && Parse(chunks[i]).value.index == k;
    assert parsed[i].index == k;
    PlaceHonest(t, parsed, k);
  }

  /** All indices present: the original bytes come back. */
  lemma HonestReassembles(hash: Hash, t: Transfer, chunks: seq<Data>)
    requires t.Valid() && AllHonest(t, chunks) && WithinBounds(t.Announcement(hash))
    requires forall k: nat :: k < t.Count() ==> k in Seen(chunks, t.Count())
    ensures Reassembled(hash, chunks, t.Announcement(hash)) == Ok(t.blob)
  {
    var parsed, count := ParseAll(chunks), t.Count();
    CarveCount(t.blob, t.per);
    assert 0 in Seen(chunks, count);
    assert Agree(parsed, count) && InRange(parsed, count);
    var slots := Place(parsed, count);
    forall k: nat | k < count
      ensures slots[k] == Some(t.Pieces()[k])
    {
      CoveredSlot(t, chunks, k);
    }
    AllPresent(slots);
    JoinSlotsIs(slots, t.Pieces());
    JoinCarve(t.blob, t.per);
  }

  lemma {:induction false} CarveBytes(blob: Data, per: nat, i: nat)
    requires per > 0 && Bytes(blob) && i < |Carve(blob, per)|
    ensures Bytes(Carve(blob, per)[i])
  {
    if |blob| > per && i > 0 {
      CarveBytes(blob[per..], per, i - 1);
    }
  }

  lemma ChunkBytes(t: Transfer, k: nat)
    requires t.Valid() && k < t.Count()
    ensures Bytes(t.Chunk(k))
  {
    CarveBytes(t.blob, t.per, k);
  }

  // ----- Runs -----

  /** A piece of a sent transfer, or anything else that can arrive. */
  datatype Arrival =
    | Announced(t: Transfer)
    | Chunked(t: Transfer, k: nat)
    | StrayManifest(m: Manifest)
    | StrayChunk(c: Data)

  datatype Piece = TheManifest | TheChunk(k: nat)

  /** Transfers under distinct ids. */
  ghost predicate Sent(ts: set<Transfer>) {
    && (forall t :: t in ts ==> t.Valid())
    && (forall t, u :: t in ts && u in ts && t.id == u.id ==> t == u)
  }

  ghost predicate Legal(ts: set<Transfer>, a: Arrival) {
    match a
    case Announced(t) => t in ts
    case Chunked(t, k) => t in ts && k < t.Count()
    case StrayManifest(m) => true
    case StrayChunk(c) => Bytes(c)
  }

  ghost predicate AllLegal(ts: set<Transfer>, arrivals: seq<Arrival>) {
    forall i :: 0 <= i < |arrivals| ==> Legal(ts, arrivals[i])
  }

  ghost function Step(hash: Hash, ts: set<Transfer>, s: State, a: Arrival): (State, Option<Completed>)
    requires Sent(ts) && Legal(ts, a)
  {
    match a
    case Announced(t) => IngestManifest(hash, s, t.Announcement(hash))
    case Chunked(t, k) =>
      ChunkBytes(t, k);
      IngestChunk(hash, s, t.Chunk(k))
    case StrayManifest(m) => IngestManifest(hash, s, m)
    case StrayChunk(c) => IngestChunk(hash, s, c)
  }

  ghost function AfterFrom(hash: Hash, ts: set<Transfer>, s: State, arrivals: seq<Arrival>): State
    requires Sent(ts) && AllLegal(ts, arrivals)
  {
    if arrivals == [] then s
    else
      var n := |arrivals| - 1;
      Step(hash, ts, AfterFrom(hash, ts, s, arrivals[..n]), arrivals[n]).0
  }

  ghost function OutputFrom(hash: Hash, ts: set<Transfer>, s: State, arrivals: seq<Arrival>, i: nat): Option<Completed>
    requires Sent(ts) && AllLegal(ts, arrivals) && i < |arrivals|
  {
    Step(hash, ts, AfterFrom(hash, ts, s, arrivals[..i]), arrivals[i]).1
  }

  ghost function After(hash: Hash, ts: set<Transfer>, arrivals: seq<Arrival>): State
    requires Sent(ts) && AllLegal(ts, arrivals)
  {
    AfterFrom(hash, ts, Start, arrivals)
  }

  ghost function Output(hash: Hash, ts: set<Transfer>, arrivals: seq<Arrival>, i: nat): Option<Completed>
    requires Sent(ts) && AllLegal(ts, arrivals) && i < |arrivals|
  {
    OutputFrom(hash, ts, Start, arrivals, i)
  }

  // ----- Strays under a transfer's own key -----

  predicate ForgesManifest(a: Arrival, t: Transfer)
    requires Bytes(t.id)
  {
    a.StrayManifest? && WithinBounds(a.m) && a.m.mediaID == t.Key()
  }

  predicate ForgesChunk(a: Arrival, t: Transfer)
    requires Bytes(t.id)
  {
    a.StrayChunk? && Bytes(a.c) && Parse(a.c).Some? && Hex(Parse(a.c).value.mediaID) == t.Key()
  }

  ghost predicate Untouched(arrivals: seq<Arrival>, t: Transfer)
    requires Bytes(t.id)
  {
    forall i :: 0 <= i < |arrivals| ==> !ForgesManifest(arrivals[i], t) && !ForgesChunk(arrivals[i], t)
  }

  // ----- The reference: the set of pieces received since the last completion -----

  /** The piece of `t` an arrival brings, if any; an oversized announcement brings none. */
  function Brings(hash: Hash, a: Arrival, t: Transfer): Option<Piece>
    requires Bytes(t.id)
  {
    match a
    case Announced(u) => if u == t && WithinBounds(t.Announcement(hash)) then Some(TheManifest) else None
    case Chunked(u, k) => if u == t then Some(TheChunk(k)) else None
    case _ => None
  }

  ghost predicate Whole(t: Transfer, got: set<Piece>) {
    TheManifest in got && forall k: nat :: k < t.Count() ==> TheChunk(k) in got
  }

  ghost function Collect(hash: Hash, got: set<Piece>, a: Arrival, t: Transfer): set<Piece>
    requires Bytes(t.id)
  {
    match Brings(hash, a, t)
    case None => got
    case Some(p) => if Whole(t, got + {p}) then {} else got + {p}
  }

  ghost function Got(hash: Hash, arrivals: seq<Arrival>, t: Transfer): set<Piece>
    requires Bytes(t.id)
  {
    if arrivals == [] then {}
    else
      var n := |arrivals| - 1;
      Collect(hash, Got(hash, arrivals[..n], t), arrivals[n], t)
  }

  /** Arrival `i` brings the one piece of `t` not yet got. */
  ghost predicate LastMissing(hash: Hash, arrivals: seq<Arrival>, t: Transfer, i: nat)
    requires Bytes(t.id) && i < |arrivals|
  {
    var p := Brings(hash, arrivals[i], t);
    p.Some? && Whole(t, Got(hash, arrivals[..i], t) + {p.value})
  }

  // ----- Refinement -----

  /** The buffers hold exactly the pieces got, and never a whole transfer. */
  ghost predicate Holds(hash: Hash, s: State, t: Transfer, got: set<Piece>)
    requires t.Valid()
  {
    && (t.Key() in s.manifests <==> TheManifest in got)
    && (TheManifest in got ==> WithinBounds(t.Announcement(hash)) && s.manifests[t.Key()] == t.Announcement(hash))
    && AllHonest(t, Have(s, t.Key()))
    && (forall k: nat :: k in Seen(Have(s, t.Key()), t.Count()) <==> TheChunk(k) in got)
  }

  lemma CompletesWhole(hash: Hash, s: State, t: Transfer, got: set<Piece>)
    requires t.Valid() && Holds(hash, s, t, got)
    ensures var (s', r) := TryComplete(hash, s, t.Key());
      if Whole(t, got)
      then r == Some(Completed(t.Key(), t.blob, t.meta)) && Holds(hash, s', t, {})
      else r == None && s' == s
  {
    if TheManifest in got {
      var have := Have(s, t.Key());
      if Whole(t, got) {
        HonestReassembles(hash, t, have);
      } else {
        var k: nat :| k < t.Count() && TheChunk(k) !in got;
        assert k !in Seen(have, t.Count());
      }
    }
  }

  lemma AnnouncedStep(hash: Hash, s: State, t: Transfer, got: set<Piece>)
    requires t.Valid() && Holds(hash, s, t, got) && WithinBounds(t.Announcement(hash))
    ensures Holds(hash, s.(manifests := s.manifests[t.Key() := t.Announcement(hash)]), t, got + {TheManifest})
  {
  }

  lemma ChunkedStep(hash: Hash, s: State, t: Transfer, k: nat, got: set<Piece>)
    requires t.Valid() && Holds(hash, s, t, got) && k < t.Count()
    ensures Holds(hash, s.(chunks := s.chunks[t.Key() := Have(s, t.Key()) + [t.Chunk(k)]]), t, got + {TheChunk(k)})
  {
    ChunkIsHonest(t, k);
    SeenSnoc(Have(s, t.Key()), t.Chunk(k), t.Count());
  }

  lemma OwnStep(hash: Hash, ts: set<Transfer>, s: State, a: Arrival, t: Transfer, got: set<Piece>)
    requires Sent(ts) && Legal(ts, a) && t in ts && Holds(hash, s, t, got) && Brings(hash, a, t).Some?
    ensures Holds(hash, Step(hash, ts, s, a).0, t, Collect(hash, got, a, t))
    ensures Step(hash, ts, s, a).1 ==
      if Whole(t, got + {Brings(hash, a, t).value}) then Some(Completed(t.Key(), t.blob, t.meta)) else None
  {
    match a
    case Announced(_) =>
      AnnouncedStep(hash, s, t, got);
      CompletesWhole(hash, s.(manifests := s.manifests[t.Key() := t.Announcement(hash)]), t, got + {TheManifest});
    case Chunked(_, k) =>
      ChunkIsHonest(t, k);
      ChunkedStep(hash, s, t, k, got);
      CompletesWhole(hash, s.(chunks := s.chunks[t.Key() := Have(s, t.Key()) + [t.Chunk(k)]]), t, got + {TheChunk(k)});
    case _ =>
  }

  /** The key an arrival works on, if it works on any. */
  function KeyOf(hash: Hash, a: Arrival): Option<string>
    requires a.Announced? || a.Chunked? ==> Bytes(a.t.id)
    requires a.StrayChunk? ==> Bytes(a.c)
  {
    match a
    case Announced(t) => if WithinBounds(t.Announcement(hash)) then Some(t.Key()) else None
    case Chunked(t, _) => Some(t.Key())
    case StrayManifest(m) => if WithinBounds(m) then Some(m.mediaID) else None
    case StrayChunk(c) => if Parse(c).Some? then Some(Hex(Parse(c).value.mediaID)) else None
  }

  lemma OtherKey(hash: Hash, ts: set<Transfer>, a: Arrival, u: Transfer)
    requires Sent(ts) && Legal(ts, a) && u in ts && Brings(hash, a, u).None?
    requires !ForgesManifest(a, u) && !ForgesChunk(a, u)
    ensures KeyOf(hash, a) != Some(u.Key())
  {
    if (a.Announced? || a.Chunked?) && a.t != u {
      KeysDiffer(ts, a.t, u);
    }
  }

  /** An arrival under another key leaves the buffers of this one, and completes nothing of it. */
  lemma ElsewhereKept(hash: Hash, ts: set<Transfer>, s: State, a: Arrival, u: Transfer)
    requires Sent(ts) && Legal(ts, a) && u in ts && KeyOf(hash, a) != Some(u.Key())
    ensures var (s', r) := Step(hash, ts, s, a);
      && Have(s', u.Key()) == Have(s, u.Key())
      && (u.Key() in s'.manifests <==> u.Key() in s.manifests)
      && (u.Key() in s.manifests ==> s'.manifests[u.Key()] == s.manifests[u.Key()])
      && (r.Some? ==> r.value.mediaID != u.Key())
  {
    if a.Chunked? {
      ChunkIsHonest(a.t, a.k);
    }
  }

  lemma OtherStep(hash: Hash, ts: set<Transfer>, s: State, a: Arrival, u: Transfer, got: set<Piece>)
    requires Sent(ts) && Legal(ts, a) && u in ts && Holds(hash, s, u, got) && Brings(hash, a, u).None?
    requires !ForgesManifest(a, u) && !ForgesChunk(a, u)
    ensures var (s', r) := Step(hash, ts, s, a);
      Holds(hash, s', u, got) && (r.Some? ==> r.value.mediaID != u.Key())
  {
    OtherKey(hash, ts, a, u);
    ElsewhereKept(hash, ts, s, a, u);
  }

  lemma KeysDiffer(ts: set<Transfer>, t: Transfer, u: Transfer)
    requires Sent(ts) && t in ts && u in ts && t != u
    ensures t.Key() != u.Key()
  {
    if t.Key() == u.Key() {
      HexInjective(t.id, u.id);
    }
  }

  /** For a transfer nothing forged, the buffers hold exactly the pieces got. */
  lemma {:induction false} BuffersHoldWhatArrived(hash: Hash, ts: set<Transfer>, arrivals: seq<Arrival>, t: Transfer)
    requires Sent(ts) && AllLegal(ts, arrivals) && t in ts && Untouched(arrivals, t)
    ensures Holds(hash, After(hash, ts, arrivals), t, Got(hash, arrivals, t))
  {
    if arrivals != [] {
      var n := |arrivals| - 1;
      BuffersHoldWhatArrived(hash, ts, arrivals[..n], t);
      var s, got := After(hash, ts, arrivals[..n]), Got(hash, arrivals[..n], t);
      if Brings(hash, arrivals[n], t).Some? {
        OwnStep(hash, ts, s, arrivals[n], t, got);
      } else {
        OtherStep(hash, ts, s, arrivals[n], t, got);
      }
    }
  }

  /**
   Over any interleaving, order and duplication, among arrivals of any other kind: an
   arrival completes an untouched transfer exactly when it is the last piece missing since
   the transfer started or last completed, and then with the original bytes.
   */
  lemma CompletesExactly(hash: Hash, ts: set<Transfer>, arrivals: seq<Arrival>, i: nat, t: Transfer)
    requires Sent(ts) && AllLegal(ts, arrivals) && i < |arrivals| && t in ts && Untouched(arrivals, t)
    ensures var r := Output(hash, ts, arrivals, i);
      && (r.Some? && r.value.mediaID == t.Key() <==> LastMissing(hash, arrivals, t, i))
      && (LastMissing(hash, arrivals, t, i) ==> r == Some(Completed(t.Key(), t.blob, t.meta)))
  {
    var a, s, got := arrivals[i], After(hash, ts, arrivals[..i]), Got(hash, arrivals[..i], t);
    BuffersHoldWhatArrived(hash, ts, arrivals[..i], t);
    if Brings(hash, a, t).Some? {
      OwnStep(hash, ts, s, a, t, got);
    } else {
      OtherStep(hash, ts, s, a, t, got);
    }
  }

  /** Oversized manifests and truncated chunks leave the buffers as they were. */
  lemma StraysChangeNothing(hash: Hash, ts: set<Transfer>, s: State, a: Arrival)
    requires Sent(ts) && Legal(ts, a) && KeyOf(hash, a).None?
    ensures Step(hash, ts, s, a) == (s, None)
  {
  }

  lemma NotYetPrefix(hash: Hash, arrivals: seq<Arrival>, t: Transfer)
    requires t.Valid() && arrivals != []
    requires forall j :: 0 <= j < |arrivals| ==> !LastMissing(hash, arrivals, t, j)
    ensures var front := arrivals[..|arrivals| - 1];
      forall j :: 0 <= j < |front| ==> !LastMissing(hash, front, t, j)
  {
    var front := arrivals[..|arrivals| - 1];
    forall j | 0 <= j < |front|
      ensures !LastMissing(hash, front, t, j)
    {
      assert front[..j] == arrivals[..j] && front[j] == arrivals[j];
      assert !LastMissing(hash, arrivals, t, j);
    }
  }

  /** Some arrival has brought the piece. */
  ghost predicate Brought(hash: Hash, arrivals: seq<Arrival>, t: Transfer, p: Piece)
    requires Bytes(t.id)
  {
    exists j :: 0 <= j < |arrivals| && Brings(hash, arrivals[j], t) == Some(p)
  }

  lemma BroughtSnoc(hash: Hash, arrivals: seq<Arrival>, t: Transfer, p: Piece)
    requires Bytes(t.id) && arrivals != []
    ensures var n := |arrivals| - 1;
      Brought(hash, arrivals, t, p) <==> Brought(hash, arrivals[..n], t, p) || Brings(hash, arrivals[n], t) == Some(p)
  {
    var n := |arrivals| - 1;
    if Brought(hash, arrivals[..n], t, p) {
      var j :| 0 <= j < n && Brings(hash, arrivals[..n][j], t) == Some(p);
      assert Brings(hash, arrivals[j], t) == Some(p);
    }
    if Brought(hash, arrivals, t, p) {
      var j :| 0 <= j < |arrivals| && Brings(hash, arrivals[j], t) == Some(p);
      assert j < n ==> Brings(hash, arrivals[..n][j], t) == Some(p);
    }
  }

  /** Until its first completion the pieces got are exactly the pieces that have arrived. */
  lemma {:induction false} FirstCompletion(hash: Hash, arrivals: seq<Arrival>, t: Transfer, p: Piece)
    requires t.Valid()
    requires forall j :: 0 <= j < |arrivals| ==> !LastMissing(hash, arrivals, t, j)
    ensures p in Got(hash, arrivals, t) <==> Brought(hash, arrivals, t, p)
  {
    if arrivals != [] {
      var n := |arrivals| - 1;
      NotYetPrefix(hash, arrivals, t);
      FirstCompletion(hash, arrivals[..n], t, p);
      BroughtSnoc(hash, arrivals, t, p);
      assert !LastMissing(hash, arrivals, t, n);
    }
  }

  // ----- Chunk sizes -----

  /** Framed by its tag byte, every chunk but the last fills its bucket, and the last fits. */
  lemma FramedChunksFill(chunker: Chunker, t: Transfer, k: nat)
    requires chunker.Valid() && t.Valid() && t.per == chunker.Per() && k < t.Count()
    ensures var framed := chunker.reservedBytes + |t.Chunk(k)|;
      framed <= chunker.targetBucket && (k < t.Count() - 1 ==> framed == chunker.targetBucket)
  {
    CarveFills(t.blob, t.per, k);
  }

  // ----- Forged chunks -----

  /** A chunk the honest manifest of `t` can be reassembled with. */
  ghost predicate Agrees(t: Transfer, c: Data) {
    Parse(c).Some? && Parse(c).value.mediaID == t.id && Parse(c).value.total == t.Count() && Parse(c).value.index < t.Count()
  }

  /** Some chunk under the key disagrees with the transfer in total or index. */
  ghost predicate Poisoned(s: State, t: Transfer)
    requires Bytes(t.id)
  {
    exists i :: 0 <= i < |Have(s, t.Key())| && !Agrees(t, Have(s, t.Key())[i])
  }

  /** Under the key lie parseable chunks of its id and at most the honest manifest. */
  ghost predicate Shaped(hash: Hash, s: State, t: Transfer)
    requires t.Valid()
  {
    && (t.Key() in s.manifests ==> s.manifests[t.Key()] == t.Announcement(hash) && WithinBounds(t.Announcement(hash)))
    && forall i :: 0 <= i < |Have(s, t.Key())| ==>
        Parse(Have(s, t.Key())[i]).Some? && Parse(Have(s, t.Key())[i]).value.mediaID == t.id
  }

  /** Any arrivals but a manifest forged under the transfer's key. */
  ghost predicate ManifestUntouched(arrivals: seq<Arrival>, t: Transfer)
    requires Bytes(t.id)
  {
    forall i :: 0 <= i < |arrivals| ==> !ForgesManifest(arrivals[i], t)
  }

  lemma PoisonedFails(hash: Hash, t: Transfer, chunks: seq<Data>, i: nat)
    requires t.Valid() && i < |chunks| && !Agrees(t, chunks[i])
    requires forall j :: 0 <= j < |chunks| ==> Parse(chunks[j]).Some? && Parse(chunks[j]).value.mediaID == t.id
    ensures Reassembled(hash, chunks, t.Announcement(hash)).Err?
  {
    var parsed := ParseAll(chunks);
    assert parsed[i] == Parse(chunks[i]).value;
  }

  lemma TryPoisoned(hash: Hash, s: State, t: Transfer)
    requires t.Valid() && Shaped(hash, s, t) && Poisoned(s, t)
    ensures TryComplete(hash, s, t.Key()) == (s, None)
  {
    if t.Key() in s.manifests {
      var i :| 0 <= i < |Have(s, t.Key())| && !Agrees(t, Have(s, t.Key())[i]);
      PoisonedFails(hash, t, Have(s, t.Key()), i);
    }
  }

  /** The state just before completion is tried. */
  ghost function Buffered(hash: Hash, ts: set<Transfer>, s: State, a: Arrival): State
    requires Sent(ts) && Legal(ts, a)
  {
    match a
    case Announced(t) => s.(manifests := s.manifests[t.Key() := t.Announcement(hash)])
    case Chunked(t, k) => s.(chunks := s.chunks[t.Key() := Have(s, t.Key()) + [t.Chunk(k)]])
    case StrayManifest(m) => s.(manifests := s.manifests[m.mediaID := m])
    case StrayChunk(c) =>
      if Parse(c).None? then s
      else var id := Hex(Parse(c).value.mediaID); s.(chunks := s.chunks[id := Have(s, id) + [c]])
  }

  lemma StepTries(hash: Hash, ts: set<Transfer>, s: State, a: Arrival)
    requires Sent(ts) && Legal(ts, a)
    ensures Step(hash, ts, s, a) ==
      match KeyOf(hash, a)
      case None => (s, None)
      case Some(id) => TryComplete(hash, Buffered(hash, ts, s, a), id)
  {
    if a.Chunked? {
      ChunkIsHonest(a.t, a.k);
    }
  }

  lemma BufferedShaped(hash: Hash, ts: set<Transfer>, s: State, a: Arrival, t: Transfer)
    requires Sent(ts) && Legal(ts, a) && t in ts && Shaped(hash, s, t)
    requires KeyOf(hash, a) == Some(t.Key()) && !ForgesManifest(a, t)
    ensures var s' := Buffered(hash, ts, s, a);
      && Shaped(hash, s', t) && (Poisoned(s, t) ==> Poisoned(s', t))
      && (Have(s', t.Key()) == Have(s, t.Key()) || exists c :: Have(s', t.Key()) == Have(s, t.Key()) + [c])
  {
    var s', h, h' := Buffered(hash, ts, s, a), Have(s, t.Key()), Have(Buffered(hash, ts, s, a), t.Key());
    if a.Announced? || a.Chunked? {
      if a.t != t {
        KeysDiffer(ts, a.t, t);
      }
      if a.Chunked? {
        ChunkIsHonest(t, a.k);
        assert h' == h + [t.Chunk(a.k)];
      }
    } else if a.StrayChunk? {
      HexInjective(Parse(a.c).value.mediaID, t.id);
      assert h' == h + [a.c];
    }
    if Poisoned(s, t) {
      var i :| 0 <= i < |h| && !Agrees(t, h[i]);
      assert h'[i] == h[i];
    }
  }

  lemma ShapedStep(hash: Hash, ts: set<Transfer>, s: State, a: Arrival, t: Transfer)
    requires Sent(ts) && Legal(ts, a) && t in ts && Shaped(hash, s, t) && !ForgesManifest(a, t)
    ensures Shaped(hash, Step(hash, ts, s, a).0, t)
    ensures Poisoned(s, t) ==> var (s', r) := Step(hash, ts, s, a);
      Poisoned(s', t) && (r.Some? ==> r.value.mediaID != t.Key())
  {
    StepTries(hash, ts, s, a);
    if KeyOf(hash, a) == Some(t.Key()) {
      BufferedShaped(hash, ts, s, a, t);
      if Poisoned(s, t) {
        TryPoisoned(hash, Buffered(hash, ts, s, a), t);
      }
    } else {
      ElsewhereKept(hash, ts, s, a, t);
    }
  }

  lemma {:induction false} ShapedAfter(hash: Hash, ts: set<Transfer>, s: State, arrivals: seq<Arrival>, t: Transfer)
    requires Sent(ts) && AllLegal(ts, arrivals) && t in ts && Shaped(hash, s, t) && ManifestUntouched(arrivals, t)
    ensures Shaped(hash, AfterFrom(hash, ts, s, arrivals), t)
    ensures Poisoned(s, t) ==> Poisoned(AfterFrom(hash, ts, s, arrivals), t)
  {
    if arrivals != [] {
      var n := |arrivals| - 1;
      ShapedAfter(hash, ts, s, arrivals[..n], t);
      ShapedStep(hash, ts, AfterFrom(hash, ts, s, arrivals[..n]), arrivals[n], t);
    }
  }

  /** The transfer is handed on, with data that has its hash. */
  ghost predicate Delivers(hash: Hash, t: Transfer, r: Option<Completed>)
    requires Bytes(t.id)
  {
    r.Some? && r.value.mediaID == t.Key() && hash(r.value.data) == hash(t.blob) && r.value.meta == t.meta
  }

  /** Some arrival of the continuation completes the transfer. */
  ghost predicate CompletesIn(hash: Hash, ts: set<Transfer>, s: State, t: Transfer, more: seq<Arrival>)
    requires Sent(ts) && AllLegal(ts, more) && Bytes(t.id)
  {
    exists i :: 0 <= i < |more| && Delivers(hash, t, OutputFrom(hash, ts, s, more, i))
  }

  ghost predicate CanComplete(hash: Hash, ts: set<Transfer>, s: State, t: Transfer)
    requires Sent(ts) && Bytes(t.id)
  {
    exists more :: AllLegal(ts, more) && ManifestUntouched(more, t) && CompletesIn(hash, ts, s, t, more)
  }

  lemma PoisonedNever(hash: Hash, ts: set<Transfer>, s: State, t: Transfer, more: seq<Arrival>)
    requires Sent(ts) && AllLegal(ts, more) && t in ts && Shaped(hash, s, t) && ManifestUntouched(more, t) && Poisoned(s, t)
    ensures !CompletesIn(hash, ts, s, t, more)
  {
    forall i | 0 <= i < |more|
      ensures var r := OutputFrom(hash, ts, s, more, i); r.Some? ==> r.value.mediaID != t.Key()
    {
      ShapedAfter(hash, ts, s, more[..i], t);
      ShapedStep(hash, ts, AfterFrom(hash, ts, s, more[..i]), more[i], t);
    }
  }

  /** One well-formed chunk under the key with a wrong total or index is enough. */
  lemma OneChunkPoisons(hash: Hash, ts: set<Transfer>, s: State, c: Data, t: Transfer)
    requires Sent(ts) && t in ts && Bytes(c) && Shaped(hash, s, t) && ForgesChunk(StrayChunk(c), t) && !Agrees(t, c)
    ensures Poisoned(Step(hash, ts, s, StrayChunk(c)).0, t)
  {
    var a := StrayChunk(c);
    var s1 := Buffered(hash, ts, s, a);
    StepTries(hash, ts, s, a);
    BufferedShaped(hash, ts, s, a, t);
    assert Have(s1, t.Key())[|Have(s, t.Key())|] == c;
    TryPoisoned(hash, s1, t);
  }

  // ----- Sending everything again -----

  ghost function Chunks(t: Transfer, n: nat): (r: seq<Data>)
    requires n <= t.Count()
    ensures |r| == n
  {
    seq(n, k requires 0 <= k < n => t.Chunk(k))
  }

  ghost function Fields(t: Transfer, n: nat): (r: seq<Parsed>)
    requires n <= t.Count()
    ensures |r| == n
  {
    seq(n, k requires 0 <= k < n => Parsed(t.id, k, t.Count(), t.Pieces()[k]))
  }

  /** Honest chunks placed last decide their slots, whatever was there before. */
  lemma {:induction false} OverridesSlots(t: Transfer, before: seq<Parsed>, n: nat, k: nat)
    requires t.Valid() && k < n <= t.Count() && InRange(before, t.Count())
    ensures InRange(before + Fields(t, n), t.Count())
    ensures Place(before + Fields(t, n), t.Count())[k] == Some(t.Pieces()[k])
  {
    var front, last := before + Fields(t, n - 1), Parsed(t.id, n - 1, t.Count(), t.Pieces()[n - 1]);
    assert before + Fields(t, n) == front + [last];
    if k < n - 1 {
      OverridesSlots(t, before, n - 1, k);
    }
    assert InRange(front, t.Count());
    PlaceSnoc(front, last, t.Count());
  }

  lemma PlaceSnoc(parsed: seq<Parsed>, last: Parsed, count: nat)
    requires InRange(parsed, count) && last.index < count
    ensures InRange(parsed + [last], count)
    ensures Place(parsed + [last], count) == Place(parsed, count)[last.index := Some(last.payload)]
  {
    var all := parsed + [last];
    assert all[..|parsed|] == parsed && all[|parsed|] == last;
  }

  ghost predicate AllAgree(t: Transfer, chunks: seq<Data>) {
    forall i :: 0 <= i < |chunks| ==> Parse(chunks[i]).Some? && Agrees(t, chunks[i])
  }

  lemma ParsesToFields(t: Transfer, have: seq<Data>)
    requires t.Valid() && AllAgree(t, have)
    ensures var all := have + Chunks(t, t.Count());
      && AllAgree(t, all)
      && ParseAll(all) == ParseAll(have) + Fields(t, t.Count())
  {
    var all := have + Chunks(t, t.Count());
    forall i | 0 <= i < |all|
      ensures Parse(all[i]).Some? && Agrees(t, all[i])
      ensures Parse(all[i]).value == (ParseAll(have) + Fields(t, t.Count()))[i]
    {
      if i >= |have| {
        assert all[i] == t.Chunk(i - |have|);
        ParseChunk(t.id, i - |have|, t.Count(), t.Pieces()[i - |have|]);
      }
    }
  }

  /** Agreeing chunks whose slots hold the pieces reassemble to the blob. */
  lemma PlacedReassembles(hash: Hash, t: Transfer, chunks: seq<Data>)
    requires t.Valid() && WithinBounds(t.Announcement(hash)) && AllAgree(t, chunks) && chunks != []
    requires InRange(ParseAll(chunks), t.Count())
    requires forall k: nat :: k < t.Count() ==> Place(ParseAll(chunks), t.Count())[k] == Some(t.Pieces()[k])
    ensures Reassembled(hash, chunks, t.Announcement(hash)) == Ok(t.blob)
  {
    var slots := Place(ParseAll(chunks), t.Count());
    assert Agree(ParseAll(chunks), t.Count());
    AllPresent(slots);
    JoinSlotsIs(slots, t.Pieces());
    JoinCarve(t.blob, t.per);
  }

  lemma ResentReassembles(hash: Hash, t: Transfer, have: seq<Data>)
    requires t.Valid() && WithinBounds(t.Announcement(hash)) && AllAgree(t, have)
    ensures Reassembled(hash, have + Chunks(t, t.Count()), t.Announcement(hash)) == Ok(t.blob)
  {
    var all, count := have + Chunks(t, t.Count()), t.Count();
    ParsesToFields(t, have);
    CarveCount(t.blob, t.per);
    forall k: nat | k < count
      ensures InRange(ParseAll(all), count) && Place(ParseAll(all), count)[k] == Some(t.Pieces()[k])
    {
      OverridesSlots(t, ParseAll(have), count, k);
    }
    assert InRange(ParseAll(all), count);
    PlacedReassembles(hash, t, all);
  }

  lemma ResentNoGaps(hash: Hash, t: Transfer, have: seq<Data>)
    requires t.Valid()
    ensures !Gaps(have + Chunks(t, t.Count()), t.Announcement(hash))
  {
    var all := have + Chunks(t, t.Count());
    forall k: nat | k < t.Count()
      ensures k in Seen(all, t.Count())
    {
      assert all[|have| + k] == t.Chunk(k);
      ParseChunk(t.id, k, t.Count(), t.Pieces()[k]);
    }
  }

  /** The announcement, then the first `n` chunks. */
  ghost function Resend(t: Transfer, n: nat): (r: seq<Arrival>)
    requires n <= t.Count()
    ensures |r| == n + 1
  {
    [Announced(t)] + seq(n, k requires 0 <= k < n => Chunked(t, k))
  }

  /** Nothing has completed yet, and everything resent so far lies on top. */
  ghost predicate Fed(hash: Hash, s: State, s': State, t: Transfer, n: nat)
    requires t.Valid() && n <= t.Count()
  {
    && t.Key() in s'.manifests && s'.manifests[t.Key()] == t.Announcement(hash)
    && Have(s', t.Key()) == Have(s, t.Key()) + Chunks(t, n)
    && TryComplete(hash, s', t.Key()).1.None?
  }

  lemma AfterSnoc(hash: Hash, ts: set<Transfer>, s: State, more: seq<Arrival>, a: Arrival)
    requires Sent(ts) && AllLegal(ts, more) && Legal(ts, a) && AllLegal(ts, more + [a])
    ensures AfterFrom(hash, ts, s, more + [a]) == Step(hash, ts, AfterFrom(hash, ts, s, more), a).0
    ensures OutputFrom(hash, ts, s, more + [a], |more|) == Step(hash, ts, AfterFrom(hash, ts, s, more), a).1
  {
    assert (more + [a])[..|more|] == more && (more + [a])[|more|] == a;
  }

  lemma CompletesLater(hash: Hash, ts: set<Transfer>, s: State, t: Transfer, more: seq<Arrival>, a: Arrival)
    requires Sent(ts) && AllLegal(ts, more) && AllLegal(ts, more + [a]) && t in ts
    requires CompletesIn(hash, ts, s, t, more)
    ensures CompletesIn(hash, ts, s, t, more + [a])
  {
    var all := more + [a];
    var i :| 0 <= i < |more| && Delivers(hash, t, OutputFrom(hash, ts, s, more, i));
    assert all[..i] == more[..i] && all[i] == more[i];
    assert OutputFrom(hash, ts, s, all, i) == OutputFrom(hash, ts, s, more, i);
  }

  ghost predicate HasAnnouncement(hash: Hash, s: State, t: Transfer)
    requires Bytes(t.id)
  {
    t.Key() in s.manifests && s.manifests[t.Key()] == t.Announcement(hash)
  }

  /** The next arrival is buffered under the key; it completes the transfer, or the buffers just grow. */
  lemma GrowsOrCompletes(hash: Hash, ts: set<Transfer>, s: State, t: Transfer, more: seq<Arrival>, a: Arrival)
    requires Sent(ts) && AllLegal(ts, more) && Legal(ts, a) && AllLegal(ts, more + [a]) && t in ts
    requires KeyOf(hash, a) == Some(t.Key())
    requires HasAnnouncement(hash, Buffered(hash, ts, AfterFrom(hash, ts, s, more), a), t)
    ensures var s1 := Buffered(hash, ts, AfterFrom(hash, ts, s, more), a);
      || CompletesIn(hash, ts, s, t, more + [a])
      || (AfterFrom(hash, ts, s, more + [a]) == s1 && TryComplete(hash, s1, t.Key()).1.None?)
  {
    AfterSnoc(hash, ts, s, more, a);
    StepTries(hash, ts, AfterFrom(hash, ts, s, more), a);
    TryOutcome(hash, Buffered(hash, ts, AfterFrom(hash, ts, s, more), a), t.Key());
  }

  ghost predicate CarriesOut(hash: Hash, m: Manifest, c: Completed) {
    hash(c.data) == m.sha256 && c.meta == m.meta
  }

  lemma TryOutcome(hash: Hash, s: State, id: string)
    ensures var (s', r) := TryComplete(hash, s, id);
      r.None? ==> s' == s
    ensures var r := TryComplete(hash, s, id).1;
      r.Some? ==> r.value.mediaID == id && id in s.manifests && CarriesOut(hash, s.manifests[id], r.value)
  {
  }

  lemma ResendLegal(ts: set<Transfer>, t: Transfer, n: nat)
    requires t in ts && n <= t.Count()
    ensures AllLegal(ts, Resend(t, n))
    ensures n > 0 ==> Resend(t, n) == Resend(t, n - 1) + [Chunked(t, n - 1)]
  {
  }

  lemma ResendStarts(hash: Hash, ts: set<Transfer>, s: State, t: Transfer)
    requires Sent(ts) && t in ts && WithinBounds(t.Announcement(hash)) && AllLegal(ts, Resend(t, 0))
    ensures CompletesIn(hash, ts, s, t, Resend(t, 0)) || Fed(hash, s, AfterFrom(hash, ts, s, Resend(t, 0)), t, 0)
  {
    assert Resend(t, 0) == [] + [Announced(t)];
    GrowsOrCompletes(hash, ts, s, t, [], Announced(t));
    assert Have(s, t.Key()) + Chunks(t, 0) == Have(s, t.Key());
  }

  lemma FedOn(hash: Hash, ts: set<Transfer>, s: State, s1: State, t: Transfer, n: nat)
    requires Sent(ts) && t in ts && n < t.Count() && Fed(hash, s, s1, t, n)
    ensures var s2 := Buffered(hash, ts, s1, Chunked(t, n));
      TryComplete(hash, s2, t.Key()).1.None? ==> Fed(hash, s, s2, t, n + 1)
  {
    ChunksSnoc(Have(s, t.Key()), t, n);
    assert Have(Buffered(hash, ts, s1, Chunked(t, n)), t.Key()) == Have(s1, t.Key()) + [t.Chunk(n)];
  }

  lemma ChunksSnoc(have: seq<Data>, t: Transfer, n: nat)
    requires n < t.Count()
    ensures have + Chunks(t, n + 1) == (have + Chunks(t, n)) + [t.Chunk(n)]
  {
  }

  lemma {:induction false} ResendFeeds(hash: Hash, ts: set<Transfer>, s: State, t: Transfer, n: nat)
    requires Sent(ts) && t in ts && WithinBounds(t.Announcement(hash)) && n <= t.Count() && AllLegal(ts, Resend(t, n))
    ensures CompletesIn(hash, ts, s, t, Resend(t, n)) || Fed(hash, s, AfterFrom(hash, ts, s, Resend(t, n)), t, n)
  {
    if n == 0 {
      ResendStarts(hash, ts, s, t);
    } else {
      ResendLegal(ts, t, n - 1);
      ResendLegal(ts, t, n);
      ResendFeeds(hash, ts, s, t, n - 1);
      if CompletesIn(hash, ts, s, t, Resend(t, n - 1)) {
        CompletesLater(hash, ts, s, t, Resend(t, n - 1), Chunked(t, n - 1));
      } else {
        ResendOn(hash, ts, s, t, Resend(t, n - 1), n - 1);
      }
    }
  }

  lemma ResendOn(hash: Hash, ts: set<Transfer>, s: State, t: Transfer, front: seq<Arrival>, n: nat)
    requires Sent(ts) && t in ts && n < t.Count() && AllLegal(ts, front) && AllLegal(ts, front + [Chunked(t, n)])
    requires Fed(hash, s, AfterFrom(hash, ts, s, front), t, n)
    ensures var more := front + [Chunked(t, n)];
      CompletesIn(hash, ts, s, t, more) || Fed(hash, s, AfterFrom(hash, ts, s, more), t, n + 1)
  {
    GrowsOrCompletes(hash, ts, s, t, front, Chunked(t, n));
    FedOn(hash, ts, s, AfterFrom(hash, ts, s, front), t, n);
  }

  lemma FullCompletes(hash: Hash, s: State, t: Transfer, have: seq<Data>)
    requires t.Valid() && WithinBounds(t.Announcement(hash)) && AllAgree(t, have)
    requires t.Key() in s.manifests && s.manifests[t.Key()] == t.Announcement(hash)
    requires Have(s, t.Key()) == have + Chunks(t, t.Count())
    ensures TryComplete(hash, s, t.Key()).1.Some?
  {
    ResentReassembles(hash, t, have);
    ResentNoGaps(hash, t, have);
  }

  lemma ResendCompletes(hash: Hash, ts: set<Transfer>, s: State, t: Transfer)
    requires Sent(ts) && t in ts && WithinBounds(t.Announcement(hash)) && !Poisoned(s, t)
    ensures AllLegal(ts, Resend(t, t.Count())) && ManifestUntouched(Resend(t, t.Count()), t)
    ensures CompletesIn(hash, ts, s, t, Resend(t, t.Count()))
  {
    var n := t.Count();
    ResendLegal(ts, t, n);
    ResendFeeds(hash, ts, s, t, n);
    FedIsFull(hash, s, AfterFrom(hash, ts, s, Resend(t, n)), t);
  }

  lemma FedIsFull(hash: Hash, s: State, s': State, t: Transfer)
    requires t.Valid() && WithinBounds(t.Announcement(hash)) && !Poisoned(s, t)
    ensures !Fed(hash, s, s', t, t.Count())
  {
    if Fed(hash, s, s', t, t.Count()) {
      assert AllAgree(t, Have(s, t.Key()));
      FullCompletes(hash, s', t, Have(s, t.Key()));
    }
  }

  lemma OversizedNever(hash: Hash, ts: set<Transfer>, s: State, t: Transfer, more: seq<Arrival>)
    requires Sent(ts) && AllLegal(ts, more) && t in ts && Shaped(hash, s, t) && ManifestUntouched(more, t)
    requires !WithinBounds(t.Announcement(hash))
    ensures !CompletesIn(hash, ts, s, t, more)
  {
    forall i | 0 <= i < |more|
      ensures var r := OutputFrom(hash, ts, s, more, i); r.Some? ==> r.value.mediaID != t.Key()
    {
      var s1, a := AfterFrom(hash, ts, s, more[..i]), more[i];
      ShapedAfter(hash, ts, s, more[..i], t);
      StepTries(hash, ts, s1, a);
      if KeyOf(hash, a) == Some(t.Key()) {
        BufferedShaped(hash, ts, s1, a, t);
      } else {
        ElsewhereKept(hash, ts, s1, a, t);
      }
    }
  }

  /**
   After any arrivals, chunks forged under its own key included: the transfer can still
   complete, if only by sending it again, exactly when it is within bounds and no chunk
   buffered under its key disagrees with it in total or index.
   */
  lemma CanCompleteExactly(hash: Hash, ts: set<Transfer>, arrivals: seq<Arrival>, t: Transfer)
    requires Sent(ts) && AllLegal(ts, arrivals) && t in ts && ManifestUntouched(arrivals, t)
    ensures var s := After(hash, ts, arrivals);
      CanComplete(hash, ts, s, t) <==> WithinBounds(t.Announcement(hash)) && !Poisoned(s, t)
  {
    var s := After(hash, ts, arrivals);
    ShapedAfter(hash, ts, Start, arrivals, t);
    if WithinBounds(t.Announcement(hash)) && !Poisoned(s, t) {
      ResendCompletes(hash, ts, s, t);
    } else {
      forall more | AllLegal(ts, more) && ManifestUntouched(more, t)
        ensures !CompletesIn(hash, ts, s, t, more)
      {
        if Poisoned(s, t) {
          PoisonedNever(hash, ts, s, t, more);
        } else {
          OversizedNever(hash, ts, s, t, more);
        }
      }
    }
  }

  /** Without a manifest forged under its id, whatever is handed on under it has the transfer's own hash. */
  lemma IntegrityKept(hash: Hash, ts: set<Transfer>, arrivals: seq<Arrival>, t: Transfer, i: nat)
    requires Sent(ts) && AllLegal(ts, arrivals) && t in ts && ManifestUntouched(arrivals, t) && i < |arrivals|
    ensures var r := Output(hash, ts, arrivals, i);
      r.Some? && r.value.mediaID == t.Key() ==> Delivers(hash, t, r)
  {
    var s, a := After(hash, ts, arrivals[..i]), arrivals[i];
    ShapedAfter(hash, ts, Start, arrivals[..i], t);
    StepTries(hash, ts, s, a);
    if KeyOf(hash, a) == Some(t.Key()) {
      BufferedShaped(hash, ts, s, a, t);
      TryOutcome(hash, Buffered(hash, ts, s, a), t.Key());
    } else {
      ElsewhereKept(hash, ts, s, a, t);
    }
  }

  // ----- Forged manifests -----

  /** One count and index range fits all the chunks. */
  ghost predicate Fits(chunks: seq<Data>, total: nat) {
    && 1 <= total <= MAX_CHUNK_COUNT
    && forall i :: 0 <= i < |chunks| ==>
        Parse(chunks[i]).Some? && Parse(chunks[i]).value.total == total && Parse(chunks[i]).value.index < total
  }

  ghost predicate Consistent(chunks: seq<Data>) {
    exists total: nat :: Fits(chunks, total)
  }

  lemma ReassembledFits(hash: Hash, chunks: seq<Data>, m: Manifest)
    requires Reassembled(hash, chunks, m).Ok?
    ensures Consistent(chunks)
  {
    var parsed := ParseAll(chunks);
    forall i | 0 <= i < |chunks|
      ensures Parse(chunks[i]).value.total == m.chunkCount && Parse(chunks[i]).value.index < m.chunkCount
    {
      assert parsed[i] == Parse(chunks[i]).value;
    }
    assert Fits(chunks, m.chunkCount);
  }

  lemma MoreIsNoBetter(chunks: seq<Data>, c: Data)
    requires Consistent(chunks + [c])
    ensures Consistent(chunks)
  {
    var total: nat :| Fits(chunks + [c], total);
    forall i | 0 <= i < |chunks|
      ensures Parse(chunks[i]).Some? && Parse(chunks[i]).value.total == total && Parse(chunks[i]).value.index < total
    {
      assert (chunks + [c])[i] == chunks[i];
    }
    assert Fits(chunks, total);
  }

  /** What lies under the key after an arrival is buffered there: the same, or one chunk of the id more. */
  lemma BufferedGrows(hash: Hash, ts: set<Transfer>, s: State, a: Arrival, t: Transfer)
    requires Sent(ts) && Legal(ts, a) && t in ts && KeyOf(hash, a) == Some(t.Key())
    ensures var h, h' := Have(s, t.Key()), Have(Buffered(hash, ts, s, a), t.Key());
      h' == h || exists c :: h' == h + [c] && Parse(c).Some? && Parse(c).value.mediaID == t.id
  {
    var h, h' := Have(s, t.Key()), Have(Buffered(hash, ts, s, a), t.Key());
    if a.Chunked? {
      if a.t != t {
        KeysDiffer(ts, a.t, t);
      }
      ChunkIsHonest(t, a.k);
      assert h' == h + [t.Chunk(a.k)];
    } else if a.StrayChunk? {
      HexInjective(Parse(a.c).value.mediaID, t.id);
      assert h' == h + [a.c];
    }
  }

  lemma TryInconsistent(hash: Hash, s: State, id: string)
    requires !Consistent(Have(s, id))
    ensures TryComplete(hash, s, id) == (s, None)
  {
    if id in s.manifests && Reassembled(hash, Have(s, id), s.manifests[id]).Ok? {
      ReassembledFits(hash, Have(s, id), s.manifests[id]);
    }
  }

  lemma InconsistentStep(hash: Hash, ts: set<Transfer>, s: State, a: Arrival, t: Transfer)
    requires Sent(ts) && Legal(ts, a) && t in ts && !Consistent(Have(s, t.Key()))
    ensures var (s', r) := Step(hash, ts, s, a);
      !Consistent(Have(s', t.Key())) && (r.Some? ==> r.value.mediaID != t.Key())
  {
    StepTries(hash, ts, s, a);
    if KeyOf(hash, a) == Some(t.Key()) {
      var s1 := Buffered(hash, ts, s, a);
      var h, h1 := Have(s, t.Key()), Have(s1, t.Key());
      BufferedGrows(hash, ts, s, a, t);
      if h1 != h {
        var c :| h1 == h + [c] && Parse(c).Some? && Parse(c).value.mediaID == t.id;
        if Consistent(h1) {
          MoreIsNoBetter(h, c);
        }
      }
      TryInconsistent(hash, s1, t.Key());
    } else {
      ElsewhereKept(hash, ts, s, a, t);
    }
  }

  lemma {:induction false} InconsistentStays(hash: Hash, ts: set<Transfer>, s: State, more: seq<Arrival>, t: Transfer)
    requires Sent(ts) && AllLegal(ts, more) && t in ts && !Consistent(Have(s, t.Key()))
    ensures !Consistent(Have(AfterFrom(hash, ts, s, more), t.Key()))
  {
    if more != [] {
      var n := |more| - 1;
      InconsistentStays(hash, ts, s, more[..n], t);
      InconsistentStep(hash, ts, AfterFrom(hash, ts, s, more[..n]), more[n], t);
    }
  }

  /** Under the key lie parseable chunks of its id, whatever has arrived. */
  ghost predicate ChunksOwn(s: State, t: Transfer)
    requires Bytes(t.id)
  {
    forall i :: 0 <= i < |Have(s, t.Key())| ==>
      Parse(Have(s, t.Key())[i]).Some? && Parse(Have(s, t.Key())[i]).value.mediaID == t.id
  }

  lemma ChunksOwnStep(hash: Hash, ts: set<Transfer>, s: State, a: Arrival, t: Transfer)
    requires Sent(ts) && Legal(ts, a) && t in ts && ChunksOwn(s, t)
    ensures ChunksOwn(Step(hash, ts, s, a).0, t)
  {
    StepTries(hash, ts, s, a);
    if KeyOf(hash, a) == Some(t.Key()) {
      BufferedGrows(hash, ts, s, a, t);
      TryOutcome(hash, Buffered(hash, ts, s, a), t.Key());
      TryClears(hash, Buffered(hash, ts, s, a), t.Key());
    } else {
      ElsewhereKept(hash, ts, s, a, t);
    }
  }

  /** Completing empties the buffers under the key. */
  lemma TryClears(hash: Hash, s: State, id: string)
    ensures var (s', r) := TryComplete(hash, s, id);
      r.Some? ==> id !in s'.manifests && Have(s', id) == []
  {
  }

  lemma {:induction false} ChunksOwnAfter(hash: Hash, ts: set<Transfer>, arrivals: seq<Arrival>, t: Transfer)
    requires Sent(ts) && AllLegal(ts, arrivals) && t in ts
    ensures ChunksOwn(After(hash, ts, arrivals), t)
  {
    if arrivals != [] {
      var n := |arrivals| - 1;
      ChunksOwnAfter(hash, ts, arrivals[..n], t);
      ChunksOwnStep(hash, ts, After(hash, ts, arrivals[..n]), arrivals[n], t);
    }
  }

  // ----- Clearing the buffers with a forged transfer -----

  /** A transfer of the same id in `total` pieces of one byte. */
  function Decoy(t: Transfer, total: nat): Transfer {
    Transfer(t.id, BigEndian.Zeros(total), 1, t.meta)
  }

  lemma DecoyFits(hash: Hash, t: Transfer, total: nat)
    requires t.Valid() && 1 <= total <= MAX_CHUNK_COUNT
    ensures var d := Decoy(t, total);
      d.Valid() && d.Count() == total && WithinBounds(d.Announcement(hash)) && d.Key() == t.Key()
  {
    CarveCount(BigEndian.Zeros(total), 1);
  }

  /** The same bytes from somebody else. */
  function AsStray(hash: Hash, a: Arrival): Arrival
    requires a.Announced? || a.Chunked? ==> Bytes(a.t.id)
    requires a.Chunked? ==> a.k < a.t.Count()
  {
    match a
    case Announced(t) => StrayManifest(t.Announcement(hash))
    case Chunked(t, k) => StrayChunk(t.Chunk(k))
    case _ => a
  }

  ghost function AsStrays(hash: Hash, ts: set<Transfer>, arrivals: seq<Arrival>): (r: seq<Arrival>)
    requires Sent(ts) && AllLegal(ts, arrivals)
    ensures |r| == |arrivals|
  {
    seq(|arrivals|, i requires 0 <= i < |arrivals| => AsStray(hash, arrivals[i]))
  }

  lemma StrayStep(hash: Hash, ts: set<Transfer>, us: set<Transfer>, s: State, a: Arrival)
    requires Sent(ts) && Sent(us) && Legal(us, a)
    ensures Legal(ts, AsStray(hash, a)) && Step(hash, ts, s, AsStray(hash, a)) == Step(hash, us, s, a)
  {
    if a.Chunked? {
      ChunkBytes(a.t, a.k);
    }
  }

  lemma {:induction false} StraysAfter(hash: Hash, ts: set<Transfer>, us: set<Transfer>, s: State, arrivals: seq<Arrival>)
    requires Sent(ts) && Sent(us) && AllLegal(us, arrivals)
    ensures AllLegal(ts, AsStrays(hash, us, arrivals))
    ensures AfterFrom(hash, ts, s, AsStrays(hash, us, arrivals)) == AfterFrom(hash, us, s, arrivals)
  {
    var strays := AsStrays(hash, us, arrivals);
    forall i | 0 <= i < |arrivals|
      ensures Legal(ts, strays[i])
    {
      StrayStep(hash, ts, us, s, arrivals[i]);
    }
    if arrivals != [] {
      var n := |arrivals| - 1;
      StraysAfter(hash, ts, us, s, arrivals[..n]);
      assert strays[..n] == AsStrays(hash, us, arrivals[..n]);
      StrayStep(hash, ts, us, AfterFrom(hash, us, s, arrivals[..n]), arrivals[n]);
    }
  }

  /** Where chunks fit one total, some arrivals complete under the key and leave its buffers empty. */
  lemma ConsistentClears(hash: Hash, ts: set<Transfer>, s: State, t: Transfer) returns (clear: seq<Arrival>)
    requires Sent(ts) && t in ts && ChunksOwn(s, t) && Consistent(Have(s, t.Key()))
    ensures AllLegal(ts, clear)
    ensures var s' := AfterFrom(hash, ts, s, clear); t.Key() !in s'.manifests && Have(s', t.Key()) == []
  {
    var total: nat :| Fits(Have(s, t.Key()), total);
    var d := Decoy(t, total);
    DecoyFits(hash, t, total);
    DecoyAgrees(s, t, total);
    var more := DecoyClears(hash, s, d);
    clear := AsStrays(hash, {d}, more);
    StraysAfter(hash, ts, {d}, s, more);
  }

  lemma DecoyAgrees(s: State, t: Transfer, total: nat)
    requires Bytes(t.id) && ChunksOwn(s, t) && Fits(Have(s, t.Key()), total) && Decoy(t, total).Count() == total
    ensures !Poisoned(s, Decoy(t, total))
  {
  }

  lemma DecoyClears(hash: Hash, s: State, d: Transfer) returns (more: seq<Arrival>)
    requires d.Valid() && WithinBounds(d.Announcement(hash)) && !Poisoned(s, d)
    ensures AllLegal({d}, more)
    ensures var s' := AfterFrom(hash, {d}, s, more); d.Key() !in s'.manifests && Have(s', d.Key()) == []
  {
    ResendCompletes(hash, {d}, s, d);
    var all := Resend(d, d.Count());
    var i :| 0 <= i < |all| && Delivers(hash, d, OutputFrom(hash, {d}, s, all, i));
    more := all[..i + 1];
    ClearedAt(hash, {d}, s, all, i, d.Key());
  }

  lemma ClearedAt(hash: Hash, ts: set<Transfer>, s: State, more: seq<Arrival>, i: nat, id: string)
    requires Sent(ts) && AllLegal(ts, more) && i < |more|
    requires OutputFrom(hash, ts, s, more, i).Some? && OutputFrom(hash, ts, s, more, i).value.mediaID == id
    ensures var s' := AfterFrom(hash, ts, s, more[..i + 1]); id !in s'.manifests && Have(s', id) == []
  {
    var s1, a := AfterFrom(hash, ts, s, more[..i]), more[i];
    assert more[..i + 1][..i] == more[..i];
    StepTries(hash, ts, s1, a);
    TryOutcome(hash, Buffered(hash, ts, s1, a), KeyOf(hash, a).value);
    TryClears(hash, Buffered(hash, ts, s1, a), KeyOf(hash, a).value);
  }

  // ----- A clean start -----

  /** The blob as one chunk of its id, under a manifest that claims a single byte. */
  function Rewrapped(hash: Hash, t: Transfer): (Manifest, Data)
    requires Bytes(t.id)
  {
    (Manifest(t.Key(), 1, 1, hash(t.blob), t.meta), ChunkOf(t.id, 0, 1, t.blob))
  }

  lemma OneSlot(t: Transfer)
    ensures var parsed := [Parsed(t.id, 0, 1, t.blob)];
      Place(parsed, 1) == [Some(t.blob)] && JoinSlots(Place(parsed, 1)) == t.blob
  {
    var parsed := [Parsed(t.id, 0, 1, t.blob)];
    var slots := Place(parsed, 1);
    assert parsed[..0] == [] && slots == [Some(t.blob)];
    assert slots[1..] == [] && JoinSlots([]) == [] && t.blob + [] == t.blob;
  }

  lemma RewrappedParses(hash: Hash, t: Transfer)
    requires t.Valid()
    ensures var c := Rewrapped(hash, t).1;
      Parse(c) == Some(Parsed(t.id, 0, 1, t.blob)) && ParseAll([c]) == [Parsed(t.id, 0, 1, t.blob)]
  {
    ParseChunk(t.id, 0, 1, t.blob);
  }

  lemma RewrappedReassembles(hash: Hash, t: Transfer)
    requires t.Valid()
    ensures var (m, c) := Rewrapped(hash, t); Reassembled(hash, [c], m) == Ok(t.blob)
  {
    RewrappedParses(hash, t);
    OneSlot(t);
    AllPresent([Some(t.blob)]);
  }

  lemma RewrappedNoGaps(hash: Hash, t: Transfer)
    requires t.Valid()
    ensures var (m, c) := Rewrapped(hash, t); !Gaps([c], m)
  {
    var (m, c) := Rewrapped(hash, t);
    RewrappedParses(hash, t);
    SeenSnoc([], c, 1);
    assert [] + [c] == [c];
  }

  lemma RewrappedCompletes(hash: Hash, ts: set<Transfer>, s: State, t: Transfer)
    requires Sent(ts) && t in ts && t.Key() !in s.manifests && Have(s, t.Key()) == []
    ensures var (m, c) := Rewrapped(hash, t);
      && Bytes(c)
      && IngestChunk(hash, IngestManifest(hash, s, m).0, c).1 == Some(Completed(t.Key(), t.blob, t.meta))
  {
    var (m, c) := Rewrapped(hash, t);
    RewrappedParses(hash, t);
    RewrappedReassembles(hash, t);
    RewrappedNoGaps(hash, t);
    assert Reassembled(hash, [], m).Err?;
    assert [] + [c] == [c];
  }

  /** Some continuation, forged manifests and chunks included, hands the transfer on with its own bytes. */
  ghost predicate CanRecover(hash: Hash, ts: set<Transfer>, s: State, t: Transfer)
    requires Sent(ts) && Bytes(t.id)
  {
    exists more, i :: AllLegal(ts, more) && 0 <= i < |more| &&
      OutputFrom(hash, ts, s, more, i) == Some(Completed(t.Key(), t.blob, t.meta))
  }

  lemma ClearRecovers(hash: Hash, ts: set<Transfer>, s: State, t: Transfer, clear: seq<Arrival>)
    requires Sent(ts) && t in ts && AllLegal(ts, clear)
    requires var s' := AfterFrom(hash, ts, s, clear); t.Key() !in s'.manifests && Have(s', t.Key()) == []
    ensures CanRecover(hash, ts, s, t)
  {
    var (m, c) := Rewrapped(hash, t);
    var first, second := StrayManifest(m), StrayChunk(c);
    RewrappedCompletes(hash, ts, AfterFrom(hash, ts, s, clear), t);
    AfterSnoc(hash, ts, s, clear, first);
    assert AllLegal(ts, clear + [first]) && AllLegal(ts, clear + [first] + [second]);
    AfterSnoc(hash, ts, s, clear + [first], second);
    Recovers(hash, ts, s, t, clear + [first] + [second], |clear + [first]|);
  }

  lemma Recovers(hash: Hash, ts: set<Transfer>, s: State, t: Transfer, more: seq<Arrival>, i: nat)
    requires Sent(ts) && t in ts && AllLegal(ts, more) && i < |more|
    requires OutputFrom(hash, ts, s, more, i) == Some(Completed(t.Key(), t.blob, t.meta))
    ensures CanRecover(hash, ts, s, t)
  {
  }

  /**
   After any arrivals whatsoever, manifests and chunks forged under its own id included: a
   transfer can still be received exactly when the chunks buffered under its key fit one
   total. The bounds do not matter: they limit what a manifest claims, not what is handed on.
   */
  lemma CanRecoverExactly(hash: Hash, ts: set<Transfer>, arrivals: seq<Arrival>, t: Transfer)
    requires Sent(ts) && AllLegal(ts, arrivals) && t in ts
    ensures var s := After(hash, ts, arrivals);
      CanRecover(hash, ts, s, t) <==> Consistent(Have(s, t.Key()))
  {
    var s := After(hash, ts, arrivals);
    if Consistent(Have(s, t.Key())) {
      ChunksOwnAfter(hash, ts, arrivals, t);
      var clear := ConsistentClears(hash, ts, s, t);
      ClearRecovers(hash, ts, s, t, clear);
    } else {
      forall more, i | AllLegal(ts, more) && 0 <= i < |more|
        ensures OutputFrom(hash, ts, s, more, i) != Some(Completed(t.Key(), t.blob, t.meta))
      {
        InconsistentStays(hash, ts, s, more[..i], t);
        InconsistentStep(hash, ts, AfterFrom(hash, ts, s, more[..i]), more[i], t);
      }
    }
  }
}
