/** A bounded FIFO per key with round-robin service between the active keys. */
module FairQueue {
  import opened Primitives

  /** The keys in service order, and the waiting items of each. */
  datatype Queue<!K, V> = Queue(active: seq<K>, queues: map<K, seq<V>>)

  predicate Distinct<T(==)>(s: seq<T>) {
    forall i, j | 0 <= i < j < |s| :: s[i] != s[j]
  }

  /** The active keys are distinct and are exactly those with a waiting item. */
  predicate WellFormed<K(==), V>(q: Queue<K, V>) {
    && Distinct(q.active)
    && (forall k | k in q.active :: k in q.queues)
    && (forall k | k in q.queues :: k in q.active)
    && (forall k | k in q.queues :: q.queues[k] != [])
  }

  /** The reference view: a FIFO for every key. */
  function Fifo<K(==), V>(q: Queue<K, V>, k: K): seq<V> {
    if k in q.queues then q.queues[k] else []
  }

  function Total<K(==), V>(keys: seq<K>, queues: map<K, seq<V>>): nat {
    if keys == [] then 0
    else (if keys[0] in queues then |queues[keys[0]]| else 0) + Total(keys[1..], queues)
  }

  function Size<K(==), V>(q: Queue<K, V>): nat {
    Total(q.active, q.queues)
  }

  function Pushed<K(==), V>(q: Queue<K, V>, k: K, v: V): Queue<K, V> {
    if k in q.queues then q.(queues := q.queues[k := q.queues[k] + [v]])
    else Queue(q.active + [k], q.queues[k := [v]])
  }

  function Popped<K(==), V>(q: Queue<K, V>): Queue<K, V>
    requires WellFormed(q) && q.active != []
  {
    var k := q.active[0];
    var rest := q.queues[k][1..];
    if rest == [] then Queue(q.active[1..], q.queues - {k})
    else Queue(q.active[1..] + [k], q.queues[k := rest])
  }

  // ------------------------------------------------------------------ totals

  lemma {:induction false} TotalOther<K, V>(keys: seq<K>, a: map<K, seq<V>>, b: map<K, seq<V>>)
    requires forall k | k in keys :: (k in a <==> k in b) && (k in a ==> a[k] == b[k])
    ensures Total(keys, a) == Total(keys, b)
  {
    if keys != [] {
      assert keys[0] in keys;
      assert forall k | k in keys[1..] :: k in keys;
      TotalOther(keys[1..], a, b);
    }
  }

  lemma {:induction false} TotalAppend<K, V>(keys: seq<K>, k: K, queues: map<K, seq<V>>)
    ensures Total(keys + [k], queues) == Total(keys, queues) + if k in queues then |queues[k]| else 0
  {
    if keys == [] {
      assert keys + [k] == [k];
      assert [k][1..] == [];
    } else {
      assert (keys + [k])[1..] == keys[1..] + [k];
      TotalAppend(keys[1..], k, queues);
    }
  }

  lemma {:induction false} TotalUpdate<K, V>(keys: seq<K>, k: K, v: seq<V>, queues: map<K, seq<V>>)
    requires Distinct(keys) && k in keys && k in queues
    ensures Total(keys, queues[k := v]) == Total(keys, queues) - |queues[k]| + |v|
  {
    if keys[0] == k {
      assert forall x | x in keys[1..] :: x != k;
      TotalOther(keys[1..], queues, queues[k := v]);
    } else {
      assert k in keys[1..];
      TotalUpdate(keys[1..], k, v, queues);
    }
  }

  lemma PushKeeps<K, V>(q: Queue<K, V>, k: K, v: V)
    requires WellFormed(q)
    ensures WellFormed(Pushed(q, k, v)) && Size(Pushed(q, k, v)) == Size(q) + 1
  {
    var p := Pushed(q, k, v);
    if k in q.queues {
      TotalUpdate(q.active, k, q.queues[k] + [v], q.queues);
    } else {
      forall x | x in p.active ensures x in q.active || x == k {}
      assert forall x | x in q.active :: x in p.active;
      assert k in p.active by { assert p.active[|q.active|] == k; }
      TotalAppend(q.active, k, p.queues);
      TotalOther(q.active, q.queues, p.queues);
    }
  }

  lemma PopHead<K, V>(q: Queue<K, V>)
    requires WellFormed(q) && q.active != []
    ensures q.active[0] in q.queues && q.queues[q.active[0]] != []
    ensures Distinct(q.active[1..]) && q.active[0] !in q.active[1..]
    ensures forall k | k in q.queues && k != q.active[0] :: k in q.active[1..]
    ensures forall k | k in q.active[1..] :: k in q.queues
  {
    assert q.active == [q.active[0]] + q.active[1..];
  }

  lemma PopWellFormed<K, V>(q: Queue<K, V>)
    requires WellFormed(q) && q.active != []
    ensures WellFormed(Popped(q))
  {
    PopHead(q);
    var k, p := q.active[0], Popped(q);
    if |q.queues[k]| > 1 {
      assert p.active[|q.active| - 1] == k;
      assert forall i | 0 <= i < |q.active| - 1 :: p.active[i] == q.active[1..][i];
      assert forall x | x in q.active[1..] :: x in p.active;
    }
  }

  lemma PopSize<K, V>(q: Queue<K, V>)
    requires WellFormed(q) && q.active != []
    ensures Size(Popped(q)) + 1 == Size(q)
  {
    PopHead(q);
    var k, p := q.active[0], Popped(q);
    TotalOther(q.active[1..], q.queues, p.queues);
    if |q.queues[k]| > 1 {
      TotalAppend(q.active[1..], k, p.queues);
    }
  }

  lemma PopKeeps<K, V>(q: Queue<K, V>)
    requires WellFormed(q) && q.active != []
    ensures WellFormed(Popped(q)) && Size(Popped(q)) + 1 == Size(q)
  {
    PopWellFormed(q);
    PopSize(q);
  }

  lemma EmptyIsIdle<K, V>(q: Queue<K, V>)
    requires WellFormed(q)
    ensures Size(q) == 0 <==> q.active == []
  {
    if q.active != [] {
      assert q.active[0] in q.queues;
    }
  }

  // ------------------------------------------------------------ the object

  class BoundedFairQueue<!K(==), V> {
    const capacity: nat
    var len: nat
    var active: seq<K>
    var queues: map<K, seq<V>>

    ghost function Contents(): Queue<K, V>
      reads this
    {
      Queue(active, queues)
    }

    ghost predicate Valid()
      reads this
    {
      WellFormed(Contents()) && len == Size(Contents()) <= capacity
    }

    constructor (limit: nat)
      requires limit > 0
      ensures Valid() && capacity == limit && Contents() == Queue([], map[])
    {
      capacity, len, active, queues := limit, 0, [], map[];
    }

    /** Accepts the item unless the bound is reached. */
    method Push(key: K, value: V) returns (accepted: bool)
      requires Valid()
      modifies this
      ensures Valid() && accepted == (old(len) < capacity)
      ensures Contents() == if accepted then Pushed(old(Contents()), key, value) else old(Contents())
    {
      if len == capacity { return false; }
      PushKeeps(Contents(), key, value);
      if key in queues {
        queues := queues[key := queues[key] + [value]];
      } else {
        active := active + [key];
        queues := queues[key := [value]];
      }
      len := len + 1;
      return true;
    }

    /** One item of the next active key; no branch of it can panic. */
    method Pop() returns (item: Option<V>)
      requires Valid()
      modifies this
      ensures Valid() && (item.None? <==> old(active) == [])
      ensures item.None? ==> Contents() == old(Contents())
      ensures item.Some? ==>
                && old(WellFormed(Contents())) && Contents() == Popped(old(Contents()))
                && old(active)[0] in old(queues) && item.value == old(queues)[old(active)[0]][0]
    {
      if active == [] { return None; }
      PopKeeps(Contents());
      var key := active[0];
      active := active[1..];
      assert key in queues && queues[key] != [];
      var value := queues[key][0];
      var rest := queues[key][1..];
      len := len - 1;
      if rest != [] {
        active := active + [key];
        queues := queues[key := rest];
      } else {
        queues := queues - {key};
      }
      return Some(value);
    }
  }

  // ----------------------------------------------------- FIFO and round robin

  datatype Event<!K, V> = PushItem(key: K, value: V) | PopItem

  function After<K(==), V>(q: Queue<K, V>, e: Event<K, V>, capacity: nat): Queue<K, V>
    requires WellFormed(q)
    ensures WellFormed(After(q, e, capacity))
  {
    match e
    case PushItem(k, v) => if Size(q) < capacity then PushKeeps(q, k, v); Pushed(q, k, v) else q
    case PopItem => if q.active == [] then q else PopKeeps(q); Popped(q)
  }

  function Replay<K(==), V>(q: Queue<K, V>, events: seq<Event<K, V>>, capacity: nat): Queue<K, V>
    requires WellFormed(q)
    ensures WellFormed(Replay(q, events, capacity))
    decreases |events|
  {
    if events == [] then q else Replay(After(q, events[0], capacity), events[1..], capacity)
  }

  /** The key that an event serves, if any. */
  function ServedBy<K(==), V>(q: Queue<K, V>, e: Event<K, V>): seq<K> {
    if e.PopItem? && q.active != [] then [q.active[0]] else []
  }

  /** The item of one key that an event accepts, and the one it hands out. */
  function AcceptedBy<K(==), V>(q: Queue<K, V>, e: Event<K, V>, capacity: nat, k: K): seq<V> {
    if e.PushItem? && e.key == k && Size(q) < capacity then [e.value] else []
  }

  function HandedOutBy<K(==), V>(q: Queue<K, V>, e: Event<K, V>, k: K): seq<V>
    requires WellFormed(q)
  {
    if e.PopItem? && q.active != [] && q.active[0] == k then [q.queues[k][0]] else []
  }

  function Served<K(==), V>(q: Queue<K, V>, events: seq<Event<K, V>>, capacity: nat): seq<K>
    requires WellFormed(q)
    decreases |events|
  {
    if events == [] then []
    else ServedBy(q, events[0]) + Served(After(q, events[0], capacity), events[1..], capacity)
  }

  function Accepted<K(==), V>(q: Queue<K, V>, events: seq<Event<K, V>>, capacity: nat, k: K): seq<V>
    requires WellFormed(q)
    decreases |events|
  {
    if events == [] then []
    else AcceptedBy(q, events[0], capacity, k) + Accepted(After(q, events[0], capacity), events[1..], capacity, k)
  }

  function HandedOut<K(==), V>(q: Queue<K, V>, events: seq<Event<K, V>>, capacity: nat, k: K): seq<V>
    requires WellFormed(q)
    decreases |events|
  {
    if events == [] then []
    else HandedOutBy(q, events[0], k) + HandedOut(After(q, events[0], capacity), events[1..], capacity, k)
  }

  lemma EventIsFifo<K, V>(q: Queue<K, V>, e: Event<K, V>, capacity: nat, k: K)
    requires WellFormed(q)
    ensures HandedOutBy(q, e, k) + Fifo(After(q, e, capacity), k) == Fifo(q, k) + AcceptedBy(q, e, capacity, k)
  {
    if e.PopItem? && q.active != [] {
      var h := q.active[0];
      assert q.queues[h] == [q.queues[h][0]] + q.queues[h][1..];
    }
  }

  lemma Regroup<T>(a: seq<T>, b: seq<T>, c: seq<T>, d: seq<T>, e: seq<T>, f: seq<T>, g: seq<T>)
    requires b + c == d + e && a + d == f + g
    ensures (a + b) + c == f + (g + e)
  {
    calc {
      (a + b) + c;
      a + (b + c);
      a + (d + e);
      (a + d) + e;
      (f + g) + e;
      f + (g + e);
    }
  }

  /** Each key is a FIFO of its own: over every run of pushes and pops, what was handed
      out followed by what still waits is what waited at first followed by what was
      accepted, in that order, whatever happens to other keys. */
  lemma {:induction false} KeyIsFifo<K, V>(q: Queue<K, V>, events: seq<Event<K, V>>, capacity: nat, k: K)
    requires WellFormed(q)
    ensures HandedOut(q, events, capacity, k) + Fifo(Replay(q, events, capacity), k)
            == Fifo(q, k) + Accepted(q, events, capacity, k)
    decreases |events|
  {
    if events != [] {
      var next := After(q, events[0], capacity);
      EventIsFifo(q, events[0], capacity, k);
      KeyIsFifo(next, events[1..], capacity, k);
      Regroup(HandedOutBy(q, events[0], k), HandedOut(next, events[1..], capacity, k),
              Fifo(Replay(next, events[1..], capacity), k), Fifo(next, k), Accepted(next, events[1..], capacity, k),
              Fifo(q, k), AcceptedBy(q, events[0], capacity, k));
    }
  }

  function Pops<K, V>(events: seq<Event<K, V>>): nat {
    if events == [] then 0 else (if events[0].PopItem? then 1 else 0) + Pops(events[1..])
  }

  /** Keys only move forward by service and join at the back. */
  lemma ActiveAfter<K, V>(q: Queue<K, V>, e: Event<K, V>, capacity: nat)
    requires WellFormed(q)
    ensures e.PushItem? ==> q.active <= After(q, e, capacity).active
    ensures e.PopItem? && q.active != [] ==> q.active[1..] <= After(q, e, capacity).active
  {
  }

  lemma PrefixAfterPop<K>(active: seq<K>, later: seq<K>, n: nat)
    requires active != [] && active[1..] <= later && n < |active|
    ensures n <= |later| && [active[0]] + later[..n] == active[..n + 1]
  {
  }

  lemma PrefixAfterPush<K>(active: seq<K>, later: seq<K>, n: nat)
    requires active <= later && n <= |active|
    ensures later[..n] == active[..n]
  {
  }

  /** Round robin: as long as there are no more pops than active keys, the keys are
      served exactly in the order they stand in, under any pushes in between. A key
      that is served again goes behind all that were active then, so each of those is
      served exactly once before its next turn. */
  lemma {:induction false} ServedInOrder<K, V>(q: Queue<K, V>, events: seq<Event<K, V>>, capacity: nat)
    requires WellFormed(q) && Pops(events) <= |q.active|
    ensures Served(q, events, capacity) == q.active[..Pops(events)]
    decreases |events|
  {
    if events != [] {
      var next, n := After(q, events[0], capacity), Pops(events[1..]);
      ActiveAfter(q, events[0], capacity);
      if events[0].PopItem? {
        PrefixAfterPop(q.active, next.active, n);
      } else {
        PrefixAfterPush(q.active, next.active, n);
      }
      ServedInOrder(next, events[1..], capacity);
    }
  }

  /** Between two services of a key, every other key that was active when it went back
      in line is served exactly once, in line order, and nobody else is. */
  lemma OneRoundBetweenServices<K, V>(q: Queue<K, V>, events: seq<Event<K, V>>, capacity: nat)
    requires WellFormed(q) && q.active != [] && |q.queues[q.active[0]]| > 1
    requires Pops(events) == |q.active|
    ensures WellFormed(Popped(q))
    ensures Served(Popped(q), events, capacity) == q.active[1..] + [q.active[0]]
    ensures Distinct(q.active[1..]) && q.active[0] !in q.active[1..]
  {
    PopKeeps(q);
    PopHead(q);
    ServedInOrder(Popped(q), events, capacity);
    assert Popped(q).active[..|q.active|] == Popped(q).active;
  }
}
