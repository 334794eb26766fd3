/**
 The two files kept in the canonical layout: the contact allowlist
 (Security/Session/ContactAllowlistCodec.swift) and the single-use invite ledger
 (Security/Session/PendingInvitesCodec.swift, Security/Session/Invite.swift).
 */
module Contacts {
  import opened Wrappers
  import opened BigEndian
  import opened AtRestCodec

  const WORD: int := 0x1_0000_0000_0000_0000

  type Int64 = v: int | -0x8000_0000_0000_0000 <= v < 0x8000_0000_0000_0000 witness 0

  /** The bit pattern of a signed 64-bit value, big-endian. */
  function PutInt64(v: Int64): (r: Data)
    ensures |r| == 8 && Bytes(r)
  {
    Put(if v < 0 then v + WORD else v, 8)
  }

  function GetInt64(b: Data): (r: Int64)
    requires |b| == 8 && Bytes(b)
  {
    PutGet(b);
    Widths();
    var u := Get(b);
    if u >= 0x8000_0000_0000_0000 then u - WORD else u
  }

  lemma Int64RoundTrip(v: Int64)
    ensures GetInt64(PutInt64(v)) == v
  {
    Widths();
    GetPut(if v < 0 then v + WORD else v, 8);
  }

  lemma Int64Onto(b: Data)
    requires |b| == 8 && Bytes(b)
    ensures PutInt64(GetInt64(b)) == b
  {
    PutGet(b);
    Widths();
  }

  // ----- The allowlist -----

  datatype Entry = Entry(pairedAt: Int64, verified: bool)

  function PutEntry(e: Entry): (r: Data) {
    PutInt64(e.pairedAt) + [if e.verified then 1 else 0]
  }

  function GetEntry(b: Data): Option<Entry> {
    if |b| != 9 || !Bytes(b) || b[8] > 1 then None else Some(Entry(GetInt64(b[..8]), b[8] == 1))
  }

  function AllowlistFormat(): Format<Entry> {
    Format(32, 9, PutEntry, GetEntry)
  }

  lemma EntryRoundTrip(e: Entry)
    ensures |PutEntry(e)| == 9 && Bytes(PutEntry(e)) && GetEntry(PutEntry(e)) == Some(e)
  {
    Int64RoundTrip(e.pairedAt);
    assert PutEntry(e)[..8] == PutInt64(e.pairedAt);
  }

  lemma EntryOnto(b: Data)
    requires GetEntry(b).Some?
    ensures PutEntry(GetEntry(b).value) == b
  {
    Int64Onto(b[..8]);
  }

  lemma AllowlistSound()
    ensures Sound(AllowlistFormat())
  {
    var f := AllowlistFormat();
    forall v: Entry
      ensures |f.put(v)| == 9 && Bytes(f.put(v)) && f.get(f.put(v)) == Some(v)
    {
      EntryRoundTrip(v);
    }
    forall b: Data | |b| == 9 && Bytes(b) && f.get(b).Some?
      ensures f.put(f.get(b).value) == b
    {
      EntryOnto(b);
    }
  }

  /** The allowlist file decodes to the allowlist it was made from, whatever its iteration order. */
  lemma AllowlistRoundTrip(p: seq<Data>, q: seq<Data>, m: map<Data, Entry>)
    requires Lists(p, m) && Lists(q, m) && |p| <= MAX_COUNT && Standard(32, p)
    ensures var f := AllowlistFormat();
      && Encode(f, p, m).Ok? && Encode(f, q, m) == Encode(f, p, m)
      && Decode(f, Encode(f, p, m).value) == Ok(m)
  {
    AllowlistSound();
    DecodeEncode(AllowlistFormat(), p, m);
    EncodingCanonical(AllowlistFormat(), p, q, m);
  }

  // ----- The invite ledger -----

  function GetExpiry(b: Data): Option<Int64> {
    if |b| != 8 || !Bytes(b) then None else Some(GetInt64(b))
  }

  function InvitesFormat(): Format<Int64> {
    Format(16, 8, PutInt64, GetExpiry)
  }

  lemma InvitesSound()
    ensures Sound(InvitesFormat())
  {
    var f := InvitesFormat();
    forall v: Int64
      ensures |f.put(v)| == 8 && Bytes(f.put(v)) && f.get(f.put(v)) == Some(v)
    {
      Int64RoundTrip(v);
    }
    forall b: Data | |b| == 8 && Bytes(b) && f.get(b).Some?
      ensures f.put(f.get(b).value) == b
    {
      Int64Onto(b);
    }
  }

  lemma InvitesRoundTrip(p: seq<Data>, q: seq<Data>, m: map<Data, Int64>)
    requires Lists(p, m) && Lists(q, m) && |p| <= MAX_COUNT && Standard(16, p)
    ensures var f := InvitesFormat();
      && Encode(f, p, m).Ok? && Encode(f, q, m) == Encode(f, p, m)
      && Decode(f, Encode(f, p, m).value) == Ok(m)
  {
    InvitesSound();
    DecodeEncode(InvitesFormat(), p, m);
    EncodingCanonical(InvitesFormat(), p, q, m);
  }

  // ----- Single use -----

  datatype Op = Register(id: Data, expiresAt: int) | Consume(id: Data, now: int, skew: int) | Prune(now: int, skew: int)

  predicate Live(expiresAt: int, now: int, skew: int) { now <= expiresAt + skew }

  function Apply(pending: map<Data, int>, op: Op): (map<Data, int>, bool) {
    match op
    case Register(id, expiresAt) => (pending[id := expiresAt], false)
    case Consume(id, now, skew) =>
      (pending - {id}, id in pending && Live(pending[id], now, skew))
    case Prune(now, skew) =>
      (map id | id in pending && Live(pending[id], now, skew) :: pending[id], false)
  }

  function After(ops: seq<Op>): map<Data, int> {
    if ops == [] then map[] else Apply(After(ops[..|ops| - 1]), ops[|ops| - 1]).0
  }

  /** The call numbered `i` burned its invite. */
  predicate Burned(ops: seq<Op>, i: nat)
    requires i < |ops|
  {
    ops[i].Consume? && Apply(After(ops[..i]), ops[i]).1
  }

  /** Call `r` registered the id, and no later call registered or tried to burn it. */
  ghost predicate Untouched(ops: seq<Op>, id: Data, r: nat) {
    && r < |ops| && ops[r].Register? && ops[r].id == id
    && forall k :: r < k < |ops| ==> ops[k].Prune? || ops[k].id != id
  }

  lemma UntouchedSnoc(ops: seq<Op>, id: Data, r: nat)
    requires ops != [] && Untouched(ops[..|ops| - 1], id, r)
    requires ops[|ops| - 1].Prune? || ops[|ops| - 1].id != id
    ensures Untouched(ops, id, r) && ops[r] == ops[..|ops| - 1][r]
  {
    forall k | r < k < |ops| - 1
      ensures ops[k].Prune? || ops[k].id != id
    {
      assert ops[k] == ops[..|ops| - 1][k];
    }
  }

  /** A pending id has the expiry of a registration nothing has touched since. */
  lemma {:induction false} PendingSince(ops: seq<Op>, id: Data) returns (r: nat)
    requires id in After(ops)
    ensures Untouched(ops, id, r) && ops[r].expiresAt == After(ops)[id]
  {
    var n := |ops| - 1;
    if ops[n].Register? && ops[n].id == id {
      r := n;
    } else {
      r := PendingSince(ops[..n], id);
      UntouchedSnoc(ops, id, r);
    }
  }

  // ----- When an invite can be burned -----

  /** Registration `r` of the id stands: nothing registered or burned the id since, and no pruning found it expired. */
  ghost predicate Stands(ops: seq<Op>, id: Data, r: nat) {
    && Untouched(ops, id, r)
    && forall k :: r < k < |ops| && ops[k].Prune? ==> ops[k].now <= ops[r].expiresAt + ops[k].skew
  }

  /** The call leaves a registration of the id with this expiry standing. */
  predicate Leaves(op: Op, id: Data, expiresAt: int) {
    if op.Prune? then op.now <= expiresAt + op.skew else op.id != id
  }

  lemma StandsSnoc(ops: seq<Op>, id: Data, r: nat)
    requires ops != [] && r < |ops| - 1
    ensures ops[..|ops| - 1][r] == ops[r]
    ensures Stands(ops, id, r) <==> Stands(ops[..|ops| - 1], id, r) && Leaves(ops[|ops| - 1], id, ops[r].expiresAt)
  {
    var front := ops[..|ops| - 1];
    assert forall k :: 0 <= k < |front| ==> front[k] == ops[k];
  }

  /** After any calls an id is pending exactly if some registration of it stands, and then with its expiry. */
  lemma {:induction false} PendingExactly(ops: seq<Op>, id: Data, expiresAt: int)
    ensures id in After(ops) && After(ops)[id] == expiresAt <==>
      exists r: nat :: Stands(ops, id, r) && ops[r].expiresAt == expiresAt
  {
    if ops != [] {
      var n := |ops| - 1;
      PendingExactly(ops[..n], id, expiresAt);
      forall r | 0 <= r < n
        ensures Stands(ops, id, r) <==> Stands(ops[..n], id, r) && Leaves(ops[n], id, ops[r].expiresAt)
        ensures ops[..n][r] == ops[r]
      {
        StandsSnoc(ops, id, r);
      }
      assert Stands(ops, id, n) <==> ops[n].Register? && ops[n].id == id;
      PendingStep(ops, id, expiresAt);
    }
  }

  lemma PendingStep(ops: seq<Op>, id: Data, expiresAt: int)
    requires ops != []
    ensures var was, last := After(ops[..|ops| - 1]), ops[|ops| - 1];
      id in After(ops) && After(ops)[id] == expiresAt <==>
        if last.Register? && last.id == id then last.expiresAt == expiresAt
        else id in was && was[id] == expiresAt && Leaves(last, id, expiresAt)
  {
  }

  /**
   A call burns its invite exactly if some registration of the id still stands, and its expiry
   plus the call's skew is not past.
   */
  lemma BurnsExactly(ops: seq<Op>, i: nat)
    requires i < |ops|
    ensures Burned(ops, i) <==>
      ops[i].Consume? && exists r: nat :: Stands(ops[..i], ops[i].id, r) && ops[i].now <= ops[r].expiresAt + ops[i].skew
  {
    if ops[i].Consume? {
      var id, pending := ops[i].id, After(ops[..i]);
      if id in pending {
        PendingExactly(ops[..i], id, pending[id]);
      }
      forall r: nat | Stands(ops[..i], id, r)
        ensures id in pending && pending[id] == ops[r].expiresAt
      {
        assert ops[..i][r] == ops[r];
        PendingExactly(ops[..i], id, ops[r].expiresAt);
      }
    }
  }

  /** Between two burns of one id lies a registration of it: no replay burns twice. */
  lemma BurnsOnce(ops: seq<Op>, i: nat, j: nat)
    requires i < j < |ops| && Burned(ops, i) && Burned(ops, j) && ops[i].id == ops[j].id
    ensures exists r :: i < r < j && ops[r].Register? && ops[r].id == ops[i].id
  {
    var before := ops[..j];
    var r := PendingSince(before, ops[j].id);
    assert before[i] == ops[i] && before[r] == ops[r];
  }

  class PendingInvites {
    var pending: map<Data, int>

    constructor ()
      ensures pending == map[]
    {
      pending := map[];
    }

    method RegisterInvite(id: Data, expiresAt: int)
      modifies this
      ensures pending == Apply(old(pending), Register(id, expiresAt)).0
    {
      pending := pending[id := expiresAt];
    }

    /** True exactly for a pending, unexpired id; the id is gone afterwards in any case. */
    method ConsumeInvite(id: Data, now: int, skew: int) returns (burned: bool)
      modifies this
      ensures (pending, burned) == Apply(old(pending), Consume(id, now, skew))
      ensures id !in pending
    {
      if id !in pending {
        assert pending - {id} == pending;
        return false;
      }
      var expiresAt := pending[id];
      pending := pending - {id};
      return Live(expiresAt, now, skew);
    }

    method PruneExpired(now: int, skew: int)
      modifies this
      ensures pending == Apply(old(pending), Prune(now, skew)).0
    {
      pending := map id | id in pending && Live(pending[id], now, skew) :: pending[id];
    }
  }
}
