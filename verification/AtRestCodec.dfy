/**
 The canonical at-rest record files: a version byte, a 16-bit count, and fixed-width
 records sorted by id (Security/Session/ContactAllowlistCodec.swift and
 Security/Session/PendingInvitesCodec.swift share the layout; `Format` is what differs).
 */
module AtRestCodec {
  import opened Wrappers
  import opened Sequences
  import opened BigEndian

  type Data = seq<nat>

  const VERSION: nat := 1
  const HEADER: nat := 3
  const MAX_COUNT: nat := 0xffff

  datatype Error =
    | TooManyEntries(count: int)
    | NonStandardId(size: int)
    | ShortBuffer
    | UnknownVersion(version: nat)
    | LengthMismatch(expected: int, actual: int)
    | BadBody
    | DuplicateId

  /** How one record's id and value are laid out. */
  datatype Format<!V> = Format(idSize: nat, bodySize: nat, put: V -> Data, get: Data -> Option<V>) {
    function Width(): nat { idSize + bodySize }
  }

  ghost predicate Sound<V(!new)>(f: Format<V>) {
    && (forall v: V :: |f.put(v)| == f.bodySize && Bytes(f.put(v)) && f.get(f.put(v)) == Some(v))
    && (forall b: Data :: |b| == f.bodySize && Bytes(b) && f.get(b).Some? ==> f.put(f.get(b).value) == b)
    && f.Width() > 0
  }

  // ----- Lexicographic order -----

  predicate Less(a: Data, b: Data) {
    b != [] && (a == [] || a[0] < b[0] || (a[0] == b[0] && Less(a[1..], b[1..])))
  }

  lemma {:induction false} LessTotal(a: Data, b: Data)
    ensures Less(a, b) || a == b || Less(b, a)
    ensures !(Less(a, b) && Less(b, a))
    ensures !Less(a, a)
  {
    if a != [] && b != [] {
      LessTotal(a[1..], b[1..]);
      assert a == [a[0]] + a[1..] && b == [b[0]] + b[1..];
    }
    if a != [] {
      LessIrreflexive(a);
    }
  }

  lemma {:induction false} LessIrreflexive(a: Data)
    ensures !Less(a, a)
  {
    if a != [] {
      LessIrreflexive(a[1..]);
    }
  }

  lemma {:induction false} LessTransitive(a: Data, b: Data, c: Data)
    requires Less(a, b) && Less(b, c)
    ensures Less(a, c)
  {
    if a != [] && a[0] == b[0] && b[0] == c[0] {
      LessTransitive(a[1..], b[1..], c[1..]);
    }
  }

  ghost predicate Ascending(ids: seq<Data>) {
    forall i, j :: 0 <= i < j < |ids| ==> Less(ids[i], ids[j])
  }

  // ----- Sorting -----

  function InsertSorted(x: Data, ids: seq<Data>): (r: seq<Data>)
    ensures forall y :: y in r <==> y == x || y in ids
    ensures |r| == |ids| + 1
  {
    if ids == [] || Less(x, ids[0]) then [x] + ids
    else
      assert ids == [ids[0]] + ids[1..];
      [ids[0]] + InsertSorted(x, ids[1..])
  }

  function Sort(ids: seq<Data>): (r: seq<Data>)
    ensures forall y :: y in r <==> y in ids
    ensures |r| == |ids|
  {
    if ids == [] then []
    else
      assert ids == [ids[0]] + ids[1..];
      InsertSorted(ids[0], Sort(ids[1..]))
  }

  lemma {:induction false} InsertAscending(x: Data, ids: seq<Data>)
    requires Ascending(ids) && x !in ids
    ensures Ascending(InsertSorted(x, ids))
  {
    if ids != [] {
      LessTotal(x, ids[0]);
      if Less(x, ids[0]) {
        forall j | 0 <= j < |ids|
          ensures Less(x, ids[j])
        {
          if j > 0 {
            LessTransitive(x, ids[0], ids[j]);
          }
        }
      } else {
        InsertAscending(x, ids[1..]);
        var rest := InsertSorted(x, ids[1..]);
        forall j | 0 <= j < |rest|
          ensures Less(ids[0], rest[j])
        {
          assert rest[j] in rest;
          if rest[j] != x {
            var k :| 0 <= k < |ids[1..]| && ids[1..][k] == rest[j];
            assert ids[k + 1] == rest[j];
          }
        }
      }
    }
  }

  lemma {:induction false} SortAscending(ids: seq<Data>)
    requires NoDuplicates(ids)
    ensures Ascending(Sort(ids))
  {
    if ids != [] {
      SortAscending(ids[1..]);
      assert ids[0] !in ids[1..];
      InsertAscending(ids[0], Sort(ids[1..]));
    }
  }

  /** A set has one ascending listing. */
  lemma {:induction false} AscendingUnique(a: seq<Data>, b: seq<Data>)
    requires Ascending(a) && Ascending(b) && forall x :: x in a <==> x in b
    ensures a == b
  {
    assert b != [] ==> b[0] in a;
    if a != [] {
      assert a[0] in b;
      HeadsEqual(a, b);
      TailMembers(a);
      TailMembers(b);
      assert forall x :: x in a[1..] <==> x in a && x != a[0];
      AscendingUnique(a[1..], b[1..]);
    }
  }

  lemma HeadsEqual(a: seq<Data>, b: seq<Data>)
    requires Ascending(a) && Ascending(b) && a != [] && b != [] && a[0] in b && b[0] in a
    ensures a[0] == b[0]
  {
    var i :| 0 <= i < |b| && b[i] == a[0];
    var j :| 0 <= j < |a| && a[j] == b[0];
    if i > 0 && j > 0 {
      assert Less(b[0], b[i]) && Less(a[0], a[j]);
      LessTotal(a[0], b[0]);
    }
  }

  lemma TailMembers(a: seq<Data>)
    requires Ascending(a) && a != []
    ensures forall x :: x in a[1..] <==> x in a && x != a[0]
  {
    LessIrreflexive(a[0]);
    forall x | x in a && x != a[0]
      ensures x in a[1..]
    {
      var i :| 0 <= i < |a| && a[i] == x;
      assert a[1..][i - 1] == x;
    }
    forall x | x in a[1..]
      ensures x != a[0]
    {
      var i :| 0 <= i < |a[1..]| && a[1..][i] == x;
      assert Less(a[0], a[i + 1]);
    }
  }

  /** A listing of a table's keys, in whatever order its iteration gives them. */
  ghost predicate Lists<V>(ids: seq<Data>, m: map<Data, V>) {
    NoDuplicates(ids) && forall x :: x in ids <==> x in m
  }

  lemma SortCanonical<V>(p: seq<Data>, q: seq<Data>, m: map<Data, V>)
    requires Lists(p, m) && Lists(q, m)
    ensures Sort(p) == Sort(q)
  {
    SortAscending(p);
    SortAscending(q);
    AscendingUnique(Sort(p), Sort(q));
  }

  // ----- Encode -----

  function Records<V>(f: Format<V>, ids: seq<Data>, m: map<Data, V>): Data
    requires forall x :: x in ids ==> x in m
  {
    if ids == [] then []
    else
      assert ids[0] in ids;
      ids[0] + f.put(m[ids[0]]) + Records(f, ids[1..], m)
  }

  predicate Standard(size: nat, ids: seq<Data>) {
    forall i :: 0 <= i < |ids| ==> |ids[i]| == size
  }

  function FirstOddSize(size: nat, ids: seq<Data>): int {
    if ids == [] then 0 else if |ids[0]| != size then |ids[0]| else FirstOddSize(size, ids[1..])
  }

  /** Serialize a table whose iteration lists its keys as `ids`. */
  function Encode<V>(f: Format<V>, ids: seq<Data>, m: map<Data, V>): Result<Data, Error>
    requires Lists(ids, m)
  {
    var sorted := Sort(ids);
    if |sorted| > MAX_COUNT then Err(TooManyEntries(|sorted|))
    else if !Standard(f.idSize, sorted) then Err(NonStandardId(FirstOddSize(f.idSize, sorted)))
    else Ok([VERSION] + Put(|sorted|, 2) + Records(f, sorted, m))
  }

  /** The bytes are a function of the table, not of its iteration order. */
  lemma EncodingCanonical<V>(f: Format<V>, p: seq<Data>, q: seq<Data>, m: map<Data, V>)
    requires Lists(p, m) && Lists(q, m)
    ensures Encode(f, p, m) == Encode(f, q, m)
  {
    SortCanonical(p, q, m);
  }

  // ----- Decode -----

  function ReadRecords<V>(f: Format<V>, b: Data, count: nat, m: map<Data, V>): (r: Result<map<Data, V>, Error>)
    requires |b| == Times(count, f.Width())
  {
    if count == 0 then Ok(m)
    else
      var id, body := b[..f.idSize], b[f.idSize..f.Width()];
      match f.get(body)
      case None => Err(BadBody)
      case Some(v) =>
        if id in m then Err(DuplicateId)
        else ReadRecords(f, b[f.Width()..], count - 1, m[id := v])
  }

  /** `count * width`. */
  function Times(count: nat, width: nat): nat {
    if count == 0 then 0 else width + Times(count - 1, width)
  }

  lemma {:induction false} TimesIs(count: nat, width: nat)
    ensures Times(count, width) == count * width
  {
    if count > 0 {
      TimesIs(count - 1, width);
    }
  }

  function Decode<V>(f: Format<V>, data: Data): Result<map<Data, V>, Error> {
    if |data| < HEADER then Err(ShortBuffer)
    else if data[0] != VERSION then Err(UnknownVersion(data[0]))
    else
      var count := Get(data[1..3]);
      if |data| != HEADER + count * f.Width() then Err(LengthMismatch(HEADER + count * f.Width(), |data|))
      else
        TimesIs(count, f.Width());
        ReadRecords(f, data[HEADER..], count, map[])
  }

  /** The part of the table the listed ids cover. */
  ghost function Restrict<V>(m: map<Data, V>, ids: seq<Data>): map<Data, V>
    requires forall x :: x in ids ==> x in m
  {
    map x | x in ids :: m[x]
  }

  lemma {:induction false} RecordsLength<V(!new)>(f: Format<V>, ids: seq<Data>, m: map<Data, V>)
    requires Sound(f) && Standard(f.idSize, ids) && forall x :: x in ids ==> x in m
    ensures |Records(f, ids, m)| == Times(|ids|, f.Width())
  {
    if ids != [] {
      assert forall x :: x in ids[1..] ==> x in ids;
      RecordsLength(f, ids[1..], m);
    }
  }

  lemma RecordSplits<V(!new)>(f: Format<V>, ids: seq<Data>, m: map<Data, V>)
    requires Sound(f) && Standard(f.idSize, ids) && ids != [] && forall x :: x in ids ==> x in m
    ensures var b := Records(f, ids, m);
      && |b| >= f.Width() && b[..f.idSize] == ids[0] && b[f.idSize..f.Width()] == f.put(m[ids[0]])
      && (forall x :: x in ids[1..] ==> x in m) && b[f.Width()..] == Records(f, ids[1..], m)
  {
    assert ids[0] in ids;
    assert forall x :: x in ids[1..] ==> x in ids;
  }

  lemma NoDuplicateHead(ids: seq<Data>)
    requires ids != [] && NoDuplicates(ids)
    ensures ids[0] in ids && ids[0] !in ids[1..] && NoDuplicates(ids[1..])
    ensures forall x :: x in ids[1..] ==> x in ids
  {
  }

  lemma RestrictCons<V>(ids: seq<Data>, m: map<Data, V>, acc: map<Data, V>)
    requires ids != [] && (forall x :: x in ids ==> x in m) && ids[0] !in ids[1..]
    ensures forall x :: x in ids[1..] ==> x in m
    ensures ids[0] in m && acc[ids[0] := m[ids[0]]] + Restrict(m, ids[1..]) == acc + Restrict(m, ids)
  {
    assert ids == [ids[0]] + ids[1..];
    assert ids[0] in ids;
  }

  lemma {:induction false} ReadsBack<V(!new)>(f: Format<V>, ids: seq<Data>, m: map<Data, V>, acc: map<Data, V>)
    requires Sound(f) && Standard(f.idSize, ids) && NoDuplicates(ids)
    requires (forall x :: x in ids ==> x in m) && (forall x :: x in ids ==> x !in acc)
    ensures |Records(f, ids, m)| == Times(|ids|, f.Width())
    ensures ReadRecords(f, Records(f, ids, m), |ids|, acc) == Ok(acc + Restrict(m, ids))
  {
    RecordsLength(f, ids, m);
    if ids == [] {
      assert acc + Restrict(m, ids) == acc;
    } else {
      RecordSplits(f, ids, m);
      NoDuplicateHead(ids);
      ReadsBack(f, ids[1..], m, acc[ids[0] := m[ids[0]]]);
      RestrictCons(ids, m, acc);
    }
  }

  /** Records in any order decode to their table. */
  lemma DecodeListed<V(!new)>(f: Format<V>, ids: seq<Data>, m: map<Data, V>)
    requires Sound(f) && Lists(ids, m) && |ids| <= MAX_COUNT && Standard(f.idSize, ids)
    ensures Decode(f, [VERSION] + Put(|ids|, 2) + Records(f, ids, m)) == Ok(m)
  {
    var data := [VERSION] + Put(|ids|, 2) + Records(f, ids, m);
    ReadsBack(f, ids, m, map[]);
    HeaderReads(|ids|, Records(f, ids, m));
    TimesIs(|ids|, f.Width());
    RestrictAll(ids, m);
    assert Decode(f, data) == ReadRecords(f, Records(f, ids, m), |ids|, map[]);
  }

  lemma RestrictAll<V>(ids: seq<Data>, m: map<Data, V>)
    requires Lists(ids, m)
    ensures map[] + Restrict(m, ids) == m
  {
  }

  lemma HeaderReads(count: nat, body: Data)
    requires count <= MAX_COUNT
    ensures var data := [VERSION] + Put(count, 2) + body;
      |data| == HEADER + |body| && data[0] == VERSION && Get(data[1..3]) == count && data[HEADER..] == body
  {
    var data := [VERSION] + Put(count, 2) + body;
    Widths();
    GetPut(count, 2);
    assert data[1..3] == Put(count, 2);
  }

  /** Decoding what was encoded gives the table back; encoding fails only on size. */
  lemma DecodeEncode<V(!new)>(f: Format<V>, ids: seq<Data>, m: map<Data, V>)
    requires Sound(f) && Lists(ids, m)
    ensures Encode(f, ids, m).Ok? <==> |ids| <= 65535 && Standard(f.idSize, ids)
    ensures Encode(f, ids, m).Ok? ==> Decode(f, Encode(f, ids, m).value) == Ok(m)
  {
    var sorted := Sort(ids);
    SortAscending(ids);
    StandardSorted(f.idSize, ids);
    AscendingNoDuplicates(sorted);
    if |sorted| <= MAX_COUNT && Standard(f.idSize, sorted) {
      DecodeListed(f, sorted, m);
    }
  }

  lemma StandardSorted(size: nat, ids: seq<Data>)
    ensures Standard(size, Sort(ids)) <==> Standard(size, ids)
  {
    var s := Sort(ids);
    if Standard(size, ids) {
      forall i | 0 <= i < |s|
        ensures |s[i]| == size
      {
        assert s[i] in s && s[i] in ids;
      }
    }
    if Standard(size, s) {
      forall i | 0 <= i < |ids|
        ensures |ids[i]| == size
      {
        assert ids[i] in ids && ids[i] in s;
      }
    }
  }

  lemma AscendingNoDuplicates(ids: seq<Data>)
    requires Ascending(ids)
    ensures NoDuplicates(ids)
  {
    forall i, j | 0 <= i < j < |ids|
      ensures ids[i] != ids[j]
    {
      assert Less(ids[i], ids[j]);
      LessIrreflexive(ids[i]);
    }
  }

  // ----- Which accepted files are canonical -----

  function IdsOf<V>(f: Format<V>, b: Data, count: nat): (r: seq<Data>)
    requires |b| == Times(count, f.Width())
    ensures |r| == count
  {
    if count == 0 then [] else [b[..f.idSize]] + IdsOf(f, b[f.Width()..], count - 1)
  }

  /** What reading records into `acc` establishes about the result. */
  ghost predicate ReadsAs<V(!new)>(f: Format<V>, b: Data, ids: seq<Data>, acc: map<Data, V>, m: map<Data, V>) {
    && (forall x :: x in acc ==> x in m && m[x] == acc[x] && x !in ids)
    && (forall x :: x in m <==> x in acc || x in ids)
    && NoDuplicates(ids) && Standard(f.idSize, ids) && b == Records(f, ids, m)
  }

  lemma ReadsCons<V(!new)>(f: Format<V>, id: Data, v: V, b: Data, ids: seq<Data>, acc: map<Data, V>, m: map<Data, V>)
    requires Sound(f) && id !in acc && |id| == f.idSize && ReadsAs(f, b, ids, acc[id := v], m)
    ensures ReadsAs(f, id + f.put(v) + b, [id] + ids, acc, m)
  {
    var all := [id] + ids;
    assert m[id] == v && id !in ids;
    assert all[1..] == ids && all[0] == id;
    assert forall x :: x in all <==> x == id || x in ids;
    assert Records(f, all, m) == id + f.put(v) + b;
  }

  /** The decoded table and the ids in file order determine the file. */
  lemma {:induction false} ReadIs<V(!new)>(f: Format<V>, b: Data, count: nat, acc: map<Data, V>)
    requires Sound(f) && Bytes(b) && |b| == Times(count, f.Width()) && ReadRecords(f, b, count, acc).Ok?
    ensures ReadsAs(f, b, IdsOf(f, b, count), acc, ReadRecords(f, b, count, acc).value)
  {
    if count > 0 {
      var id, v, rest := ReadHead(f, b, count, acc);
      ReadIs(f, rest, count - 1, acc[id := v]);
      ReadsCons(f, id, v, rest, IdsOf(f, rest, count - 1), acc, ReadRecords(f, b, count, acc).value);
    }
  }

  /** The first record of an accepted body, and the body after it. */
  lemma ReadHead<V(!new)>(f: Format<V>, b: Data, count: nat, acc: map<Data, V>) returns (id: Data, v: V, rest: Data)
    requires Sound(f) && Bytes(b) && count > 0 && |b| == Times(count, f.Width()) && ReadRecords(f, b, count, acc).Ok?
    ensures id !in acc && |id| == f.idSize && b == id + f.put(v) + rest
    ensures Bytes(rest) && |rest| == Times(count - 1, f.Width())
    ensures ReadRecords(f, rest, count - 1, acc[id := v]) == ReadRecords(f, b, count, acc)
    ensures IdsOf(f, b, count) == [id] + IdsOf(f, rest, count - 1)
  {
    var body := b[f.idSize..f.Width()];
    id, v, rest := b[..f.idSize], f.get(body).value, b[f.Width()..];
    assert f.put(v) == body;
    assert b == id + body + rest;
  }

  lemma {:induction false} RecordsInjective<V(!new)>(f: Format<V>, p: seq<Data>, q: seq<Data>, m: map<Data, V>)
    requires Sound(f) && Standard(f.idSize, p) && Standard(f.idSize, q) && |p| == |q|
    requires (forall x :: x in p ==> x in m) && (forall x :: x in q ==> x in m)
    requires Records(f, p, m) == Records(f, q, m)
    ensures p == q
  {
    if p != [] {
      RecordSplits(f, p, m);
      RecordSplits(f, q, m);
      RecordsInjective(f, p[1..], q[1..], m);
      assert p == [p[0]] + p[1..] && q == [q[0]] + q[1..];
    }
  }

  /** Re-encoding an accepted file reproduces it exactly when its records are in order. */
  lemma ReencodeExactly<V(!new)>(f: Format<V>, data: Data)
    requires Sound(f) && Bytes(data) && Decode(f, data).Ok?
    ensures var count := Get(data[1..3]);
      && |data[HEADER..]| == Times(count, f.Width())
      && var ids := IdsOf(f, data[HEADER..], count);
        && Lists(ids, Decode(f, data).value)
        && (Encode(f, ids, Decode(f, data).value) == Ok(data) <==> Ascending(ids))
  {
    var count := Get(data[1..3]);
    TimesIs(count, f.Width());
    var body := data[HEADER..];
    ReadIs(f, body, count, map[]);
    var ids, m := IdsOf(f, body, count), Decode(f, data).value;
    Canonical(f, ids, m, data);
  }

  lemma HeaderIs(data: Data, count: nat)
    requires Bytes(data) && |data| >= HEADER && data[0] == VERSION && Get(data[1..3]) == count
    ensures count <= MAX_COUNT && data == [VERSION] + Put(count, 2) + data[HEADER..]
  {
    PutGet(data[1..3]);
    Widths();
  }

  lemma Canonical<V(!new)>(f: Format<V>, ids: seq<Data>, m: map<Data, V>, data: Data)
    requires Sound(f) && Lists(ids, m) && Standard(f.idSize, ids) && Bytes(data)
    requires |data| >= HEADER && data[0] == VERSION && Get(data[1..3]) == |ids| && data[HEADER..] == Records(f, ids, m)
    ensures Encode(f, ids, m) == Ok(data) <==> Ascending(ids)
  {
    var sorted := Sort(ids);
    SortAscending(ids);
    StandardSorted(f.idSize, ids);
    HeaderIs(data, |ids|);
    assert Encode(f, ids, m) == Ok([VERSION] + Put(|ids|, 2) + Records(f, sorted, m));
    SameFile(f, ids, sorted, m);
    if Ascending(ids) {
      AscendingUnique(sorted, ids);
    }
  }

  /** Two files of one table differ exactly in the order of their records. */
  lemma SameFile<V(!new)>(f: Format<V>, p: seq<Data>, q: seq<Data>, m: map<Data, V>)
    requires Sound(f) && Standard(f.idSize, p) && Standard(f.idSize, q) && |p| == |q| <= MAX_COUNT
    requires (forall x :: x in p ==> x in m) && (forall x :: x in q ==> x in m)
    ensures [VERSION] + Put(|p|, 2) + Records(f, p, m) == [VERSION] + Put(|q|, 2) + Records(f, q, m) <==> p == q
  {
    HeaderReads(|p|, Records(f, p, m));
    HeaderReads(|q|, Records(f, q, m));
    if Records(f, p, m) == Records(f, q, m) {
      RecordsInjective(f, p, q, m);
    }
  }
}
