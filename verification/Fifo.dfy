/**
 The bounded first-in-first-out sets: the processed-event ledger
 (Core/Routing/ProcessedEventLedger.swift), the router's seen cache, which has the same
 insert, and the waveform bar cache (Screens/Conversation1View.swift).
 */
module Fifo {
  import opened Wrappers
  import opened Sequences

  ghost function Elements<T>(s: seq<T>): set<T> {
    set x | x in s
  }

  lemma ElementsTail<T(!new)>(s: seq<T>)
    requires NoDuplicates(s) && s != []
    ensures Elements(s[1..]) == Elements(s) - {s[0]}
  {
    forall x | x in Elements(s) - {s[0]}
      ensures x in s[1..]
    {
      var i :| 0 <= i < |s| && s[i] == x;
      assert s[1..][i - 1] == x;
    }
  }

  lemma ElementsSnoc<T>(s: seq<T>, x: T)
    ensures Elements(s + [x]) == Elements(s) + {x}
  {
    assert (s + [x])[|s|] == x;
  }

  // ----- Insert with eviction, on the order alone -----

  function Insert<T(==)>(order: seq<T>, capacity: nat, id: T): seq<T> {
    if id in order then order
    else if |order| + 1 > capacity && order != [] then order[1..] + [id]
    else order + [id]
  }

  function InsertAll<T(==)>(order: seq<T>, capacity: nat, ids: seq<T>): seq<T> {
    if ids == [] then order
    else Insert(InsertAll(order, capacity, ids[..|ids| - 1]), capacity, ids[|ids| - 1])
  }

  /** How many of the ids were new when they came. */
  function FirstSights<T(==)>(order: seq<T>, capacity: nat, ids: seq<T>): nat {
    if ids == [] then 0
    else
      var n := |ids| - 1;
      FirstSights(order, capacity, ids[..n])
      + (if ids[n] in InsertAll(order, capacity, ids[..n]) then 0 else 1)
  }

  ghost predicate Bounded<T(!new)>(order: seq<T>, capacity: nat) {
    NoDuplicates(order) && |order| <= capacity && capacity >= 1
  }

  lemma InsertBounded<T(!new)>(order: seq<T>, capacity: nat, id: T)
    requires Bounded(order, capacity)
    ensures Bounded(Insert(order, capacity, id), capacity) && id in Insert(order, capacity, id)
  {
  }

  lemma {:induction false} InsertAllBounded<T(!new)>(order: seq<T>, capacity: nat, ids: seq<T>)
    requires Bounded(order, capacity)
    ensures Bounded(InsertAll(order, capacity, ids), capacity)
  {
    if ids != [] {
      InsertAllBounded(order, capacity, ids[..|ids| - 1]);
      InsertBounded(InsertAll(order, capacity, ids[..|ids| - 1]), capacity, ids[|ids| - 1]);
    }
  }

  /** The newest id moves one place towards the front with each first sight, and no other way. */
  lemma {:induction false} NewestAges<T(!new)>(order: seq<T>, capacity: nat, ids: seq<T>)
    requires Bounded(order, capacity) && order != [] && FirstSights(order, capacity, ids) < capacity
    ensures var now, n := InsertAll(order, capacity, ids), FirstSights(order, capacity, ids);
      n < |now| && now[|now| - 1 - n] == order[|order| - 1]
      && |now| == if |order| + n <= capacity then |order| + n else capacity
  {
    if ids != [] {
      NewestAges(order, capacity, ids[..|ids| - 1]);
      InsertAllBounded(order, capacity, ids[..|ids| - 1]);
    }
  }

  /** An id is remembered until exactly `capacity` further ids have come for the first time. */
  lemma {:induction false} RememberedExactly<T(!new)>(order: seq<T>, capacity: nat, ids: seq<T>)
    requires Bounded(order, capacity) && order != [] && FirstSights(order, capacity, ids) <= capacity
    ensures order[|order| - 1] in InsertAll(order, capacity, ids) <==> FirstSights(order, capacity, ids) < capacity
  {
    var id := order[|order| - 1];
    if FirstSights(order, capacity, ids) < capacity {
      NewestAges(order, capacity, ids);
    } else if ids != [] {
      var n := |ids| - 1;
      var before := InsertAll(order, capacity, ids[..n]);
      InsertAllBounded(order, capacity, ids[..n]);
      if FirstSights(order, capacity, ids[..n]) < capacity {
        NewestAges(order, capacity, ids[..n]);
        assert before[0] == id;
        assert Insert(before, capacity, ids[n]) == before[1..] + [ids[n]];
      } else {
        RememberedExactly(order, capacity, ids[..n]);
      }
    }
  }

  // ----- Storing the ledger -----

  function Dedup<T(==, !new)>(stored: seq<T>): (r: seq<T>)
    ensures forall x :: x in r <==> x in stored
  {
    if stored == [] then []
    else
      var n := |stored| - 1;
      var front := Dedup(stored[..n]);
      assert stored == stored[..n] + [stored[n]];
      if stored[n] in front then front else front + [stored[n]]
  }

  lemma {:induction false} DedupNoDuplicates<T(!new)>(stored: seq<T>)
    ensures NoDuplicates(Dedup(stored))
    ensures NoDuplicates(stored) ==> Dedup(stored) == stored
  {
    if stored != [] {
      DedupNoDuplicates(stored[..|stored| - 1]);
    }
  }

  function Newest<T>(s: seq<T>, n: nat): seq<T> {
    if |s| <= n then s else s[|s| - n..]
  }

  const DEFAULT_CAPACITY: int := 8192

  function Cap(capacity: int): (r: nat)
    ensures r >= 1
  {
    if capacity < 1 then 1 else capacity
  }

  method FirstSeen(stored: seq<string>) returns (clean: seq<string>, seen: set<string>)
    ensures clean == Dedup(stored) && seen == Elements(clean)
  {
    clean, seen := [], {};
    for i := 0 to |stored|
      invariant clean == Dedup(stored[..i]) && seen == Elements(clean)
    {
      assert stored[..i + 1][..i] == stored[..i];
      if stored[i] !in seen {
        ElementsSnoc(clean, stored[i]);
        seen := seen + {stored[i]};
        clean := clean + [stored[i]];
      }
    }
    assert stored[..|stored|] == stored;
  }

  class ProcessedEventLedger {
    var present: set<string>
    var order: seq<string>
    const capacity: nat

    ghost predicate Valid()
      reads this
    {
      Bounded(order, capacity) && present == Elements(order)
    }

    constructor (capacity_: int)
      ensures Valid() && order == [] && capacity == if capacity_ < 1 then 1 else capacity_
    {
      present, order := {}, [];
      capacity := Cap(capacity_);
    }

    method ContainsOrInsert(id: string) returns (seen: bool)
      requires Valid()
      modifies this
      ensures Valid() && seen == (id in old(order)) && order == Insert(old(order), capacity, id)
    {
      InsertBounded(order, capacity, id);
      if id in present {
        return true;
      }
      present := present + {id};
      ElementsSnoc(order, id);
      order := order + [id];
      if |order| > capacity {
        ElementsTail(order);
        var evicted := order[0];
        order := order[1..];
        present := present - {evicted};
      }
      return false;
    }

    method Contains(id: string) returns (r: bool)
      requires Valid()
      ensures r == (id in order)
    {
      r := id in present;
    }

    /** Whatever the stored order, the decoded ledger is sound: first sights, newest kept. */
    constructor Decode(stored: seq<string>, storedCapacity: Option<int>)
      ensures Valid()
      ensures capacity == if storedCapacity.None? then 8192 else if storedCapacity.value < 1 then 1 else storedCapacity.value
      ensures order == Newest(Dedup(stored), capacity)
    {
      var cap := Cap(if storedCapacity.Some? then storedCapacity.value else DEFAULT_CAPACITY);
      var clean, seen := FirstSeen(stored);
      DedupNoDuplicates(stored);
      if |clean| > cap {
        clean := clean[|clean| - cap..];
        seen := set x | x in clean;
      }
      capacity, order, present := cap, clean, seen;
    }
  }

  /** Decoding what a ledger stores gives back its order and capacity. */
  lemma DecodeInvertsEncode(order: seq<string>, capacity: nat)
    requires Bounded(order, capacity)
    ensures Newest(Dedup(order), Cap(capacity)) == order && Cap(capacity) == capacity
  {
    DedupNoDuplicates(order);
  }

  // ----- The waveform cache -----

  class WaveformBarCache<V> {
    var bars: map<nat, V>
    var order: seq<nat>
    const capacity: nat := 128

    ghost predicate Valid()
      reads this
    {
      Bounded(order, capacity) && bars.Keys == Elements(order)
    }

    constructor ()
      ensures Valid() && bars == map[]
    {
      bars, order := map[], [];
    }

    /** The stored value is found; at most the oldest other entry is lost, none is changed. */
    method Store(id: nat, value: V)
      requires Valid()
      modifies this
      ensures Valid() && order == Insert(old(order), capacity, id)
      ensures id in bars && bars[id] == value
      ensures forall k :: k in bars && k != id ==> k in old(bars) && bars[k] == old(bars[k])
      ensures forall k :: k in old(bars) && k !in bars ==> id !in old(bars) && |old(order)| == 128 && k == old(order)[0]
      ensures |order| <= 128 && bars.Keys == Elements(order)
    {
      InsertBounded(order, capacity, id);
      var isNew := id !in bars;
      bars := bars[id := value];
      if isNew {
        order := order + [id];
      }
      while |order| > capacity
        invariant |order| <= capacity + 1 && order != []
        invariant |order| > capacity ==>
          isNew && |old(order)| == capacity && order == old(order) + [id] && bars == old(bars)[id := value]
        invariant |order| <= capacity ==>
          && order == Insert(old(order), capacity, id)
          && bars == if isNew && |old(order)| == capacity then old(bars)[id := value] - {old(order)[0]} else old(bars)[id := value]
        decreases |order|
      {
        bars := bars - {order[0]};
        order := order[1..];
      }
    }
  }
}
