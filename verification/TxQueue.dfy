/**
 * The list of scheduled packets in memory: singly linked nodes spliced in place, shared by the
 * timer task and the service task. Each method is proved to do what the sequence operation of
 * TxProtocol does.
 */
module TxQueue {
  import opened Basics
  import opened TxProtocol

  class Packet {
    const id: Id
    const iface: nat
    const proto: nat
    var sendAt: nat
    var queued: bool
    var next: Packet?

    constructor (id: Id, iface: nat, proto: nat)
      ensures this.id == id && this.iface == iface && this.proto == proto && !queued && next == null
    {
      this.id, this.iface, this.proto := id, iface, proto;
      sendAt, queued, next := 0, false, null;
    }

    function Value(): Entry
      reads this`sendAt, this`queued
    {
      Entry(id, sendAt, queued, iface, proto)
    }
  }

  function ActionIds(ps: seq<Packet>): (ids: seq<Id>)
    ensures |ids| == |ps| && forall i :: 0 <= i < |ids| ==> ids[i] == ps[i].id
  {
    seq(|ps|, i requires 0 <= i < |ps| => ps[i].id)
  }

  ghost function InsertAt<T>(s: seq<T>, k: nat, x: T): (r: seq<T>)
    requires k <= |s|
    ensures |r| == |s| + 1 && forall i :: 0 <= i < |r| ==>
            r[i] == if i < k then s[i] else if i == k then x else s[i - 1]
  {
    seq(|s| + 1, i requires 0 <= i <= |s| => if i < k then s[i] else if i == k then x else s[i - 1])
  }

  ghost function RemoveAt<T>(s: seq<T>, k: nat): (r: seq<T>)
    requires k < |s|
    ensures |r| == |s| - 1 && forall i :: 0 <= i < |r| ==> r[i] == if i < k then s[i] else s[i + 1]
  {
    seq(|s| - 1, i requires 0 <= i < |s| - 1 => if i < k then s[i] else s[i + 1])
  }

  ghost function Nth(nodes: seq<Packet>, i: nat): Packet? {
    if i < |nodes| then nodes[i] else null
  }

  ghost predicate Linked(nodes: seq<Packet>)
    reads nodes`next
  {
    forall i {:trigger nodes[i].next} :: 0 <= i < |nodes| ==> nodes[i].next == Nth(nodes, i + 1)
  }

  lemma DistinctInsert(ns: seq<Packet>, k: nat, p: Packet)
    requires Distinct(ns) && p !in ns && k <= |ns|
    ensures Distinct(InsertAt(ns, k, p))
  {
  }

  lemma DistinctRemove(ns: seq<Packet>, k: nat)
    requires Distinct(ns) && k < |ns|
    ensures Distinct(RemoveAt(ns, k))
  {
  }

  lemma LinkedInsert(ns: seq<Packet>, k: nat, p: Packet, r: seq<Packet>)
    requires 0 < k <= |ns| && p.next == Nth(ns, k) && ns[k - 1].next == p && r == InsertAt(ns, k, p)
    requires forall i {:trigger ns[i].next} :: 0 <= i < |ns| && i != k - 1 ==> ns[i].next == Nth(ns, i + 1)
    ensures Linked(r)
  {
    forall i | 0 <= i < |r|
      ensures r[i].next == Nth(r, i + 1)
    {
      assert i < k - 1 ==> ns[i].next == Nth(ns, i + 1);
      assert i > k ==> ns[i - 1].next == Nth(ns, i);
    }
  }

  lemma LinkedRemove(ns: seq<Packet>, k: nat, r: seq<Packet>)
    requires 0 < k < |ns| && ns[k - 1].next == Nth(ns, k + 1) && r == RemoveAt(ns, k)
    requires forall i {:trigger ns[i].next} :: 0 <= i < |ns| && i != k - 1 ==> ns[i].next == Nth(ns, i + 1)
    ensures Linked(r)
  {
    forall i | 0 <= i < |r|
      ensures r[i].next == Nth(r, i + 1)
    {
      assert i < k - 1 ==> ns[i].next == Nth(ns, i + 1);
      assert i >= k ==> ns[i + 1].next == Nth(ns, i + 2);
    }
  }

  class Queue {
    var head: Packet?
    /** The pending transmit actions, oldest first. */
    var actions: seq<Packet>
    ghost var nodes: seq<Packet>
    /** What the list stands for. */
    ghost var entries: seq<Entry>

    ghost predicate Valid()
      reads this, nodes
    {
      && Distinct(nodes) && head == Nth(nodes, 0) && Linked(nodes)
      && |entries| == |nodes| && forall i :: 0 <= i < |nodes| ==> entries[i] == nodes[i].Value()
    }

    constructor ()
      ensures Valid() && entries == [] && actions == []
    {
      head, actions, nodes, entries := null, [], [], [];
    }

    // -------------------------------------------------------------- pointer surgery

    method PushFront(p: Packet)
      requires Valid() && p !in nodes
      modifies this`head, this`nodes, this`entries, p`next
      ensures Valid() && nodes == [p] + old(nodes) && entries == [p.Value()] + old(entries)
    {
      p.next := head;
      head := p;
      nodes, entries := [p] + nodes, [p.Value()] + entries;
      forall i | 0 < i < |nodes|
        ensures nodes[i].next == Nth(nodes, i + 1)
      {
        assert old(nodes)[i - 1].next == Nth(old(nodes), i);
      }
    }

    method PopFront()
      requires Valid() && head != null
      modifies this`head, this`nodes, this`entries
      ensures Valid() && nodes == old(nodes)[1..] && entries == old(entries)[1..]
    {
      assert nodes[0].next == Nth(nodes, 1);
      head := head.next;
      nodes, entries := nodes[1..], entries[1..];
      forall i | 0 <= i < |nodes|
        ensures nodes[i].next == Nth(nodes, i + 1)
      {
        assert old(nodes)[i + 1].next == Nth(old(nodes), i + 2);
      }
    }

    /** `q` is the node before position `k`. */
    method SpliceBehind(q: Packet, ghost k: nat, p: Packet)
      requires Valid() && 0 < k <= |nodes| && q == nodes[k - 1] && p !in nodes
      modifies this`nodes, this`entries, q`next, p`next
      ensures Valid() && nodes == InsertAt(old(nodes), k, p)
      ensures entries == InsertAt(old(entries), k, p.Value())
    {
      assert q.next == Nth(nodes, k);
      p.next := q.next;
      q.next := p;
      DistinctInsert(nodes, k, p);
      ghost var spliced := InsertAt(nodes, k, p);
      LinkedInsert(nodes, k, p, spliced);
      nodes, entries := spliced, InsertAt(entries, k, p.Value());
    }

    method DropBehind(q: Packet, ghost k: nat)
      requires Valid() && 0 < k < |nodes| && q == nodes[k - 1]
      modifies this`nodes, this`entries, q`next
      ensures Valid() && nodes == RemoveAt(old(nodes), k)
      ensures entries == RemoveAt(old(entries), k)
    {
      assert q.next == nodes[k] && nodes[k].next == Nth(nodes, k + 1);
      q.next := q.next.next;
      DistinctRemove(nodes, k);
      ghost var shorter := RemoveAt(nodes, k);
      LinkedRemove(nodes, k, shorter);
      nodes, entries := shorter, RemoveAt(entries, k);
    }

    // -------------------------------------------------------------- the operations of the source

    /** `mdns_priv_send_after`, at tick count `now`. */
    method SendAfter(p: Packet, ms: nat, now: nat)
      requires Valid() && p !in nodes
      modifies this`head, this`nodes, this`entries, nodes`next, p
      ensures Valid() && entries == Insert(old(entries), old(p.Value()).(sendAt := U32(now + ms)))
      ensures forall x <- nodes :: x == p || x in old(nodes)
    {
      p.sendAt := U32(now + ms);
      p.next := null;
      if head == null || head.sendAt > p.sendAt {
        Inserted(entries, p.Value(), 0);
        PushFront(p);
        return;
      }
      var q := head;
      ghost var k := 1;
      while q.next != null && q.next.sendAt <= p.sendAt
        invariant 1 <= k <= |nodes| && q == nodes[k - 1]
        invariant forall i :: 0 <= i < k ==> entries[i].sendAt <= p.sendAt
        decreases |nodes| - k
      {
        assert nodes[k - 1].next == Nth(nodes, k);
        q := q.next;
        k := k + 1;
      }
      assert nodes[k - 1].next == Nth(nodes, k);
      Inserted(entries, p.Value(), k);
      SpliceBehind(q, k, p);
    }

    /** `mdns_priv_clear_tx_queue`. */
    method ClearAll()
      requires Valid()
      modifies this`head, this`nodes, this`entries
      ensures Valid() && entries == []
    {
      while head != null
        invariant Valid()
        decreases |nodes|
      {
        PopFront();
      }
    }

    /** `mdns_priv_clear_tx_queue_if`: the leading matches, then the matches further down. */
    method ClearIf(iface: nat, proto: nat)
      requires Valid()
      modifies this`head, this`nodes, this`entries, nodes`next
      ensures Valid() && entries == Cleared(old(entries), iface, proto)
      ensures forall x <- nodes :: x in old(nodes)
    {
      ghost var all := nodes;
      while head != null && head.iface == iface && head.proto == proto
        invariant Valid() && forall i :: 0 <= i < |nodes| ==> nodes[i] in all
        invariant Cleared(entries, iface, proto) == Cleared(old(entries), iface, proto)
        decreases |nodes|
      {
        ClearedFirst(entries, iface, proto);
        PopFront();
      }
      if head != null {
        ClearBehindHead(iface, proto);
      }
    }

    method ClearBehindHead(iface: nat, proto: nat)
      requires Valid() && head != null && !(head.iface == iface && head.proto == proto)
      modifies this`nodes, this`entries, nodes`next
      ensures Valid() && entries == Cleared(old(entries), iface, proto)
      ensures forall x <- nodes :: x in old(nodes)
    {
      ghost var all, whole := nodes, Cleared(entries, iface, proto);
      var q := head;
      ghost var k := 1;
      ClearedKeeps(entries, 1, iface, proto);
      while q.next != null
        invariant Valid() && 1 <= k <= |nodes| && q == nodes[k - 1]
        invariant forall i :: 0 <= i < |nodes| ==> nodes[i] in all
        invariant Cleared(entries[..k], iface, proto) == entries[..k]
        invariant Cleared(entries, iface, proto) == whole
        decreases |nodes| - k
      {
        assert nodes[k - 1].next == Nth(nodes, k);
        var p := q.next;
        if p.iface == iface && p.proto == proto {
          DropMatch(q, k, iface, proto);
        } else {
          q := p;
          k := k + 1;
          ClearedKeeps(entries, k, iface, proto);
        }
      }
      assert nodes[k - 1].next == Nth(nodes, k);
      assert entries[..k] == entries;
    }

    method DropMatch(q: Packet, ghost k: nat, ghost iface: nat, ghost proto: nat)
      requires Valid() && 0 < k < |nodes| && q == nodes[k - 1]
      requires nodes[k].iface == iface && nodes[k].proto == proto
      modifies this`nodes, this`entries, q`next
      ensures Valid() && |nodes| == |old(nodes)| - 1 && nodes[k - 1] == q
      ensures forall i :: 0 <= i < |nodes| ==> nodes[i] in old(nodes)
      ensures entries[..k] == old(entries)[..k]
      ensures Cleared(entries, iface, proto) == Cleared(old(entries), iface, proto)
    {
      ghost var before := entries;
      DropBehind(q, k);
      SamePrefix(before, k);
      ClearedDrops(before, entries, k, iface, proto);
    }

    /** `queueDetach` on the packet of this identity, if it is listed. */
    method Detach(id: Id)
      requires Valid() && DistinctIds(entries)
      modifies this`head, this`nodes, this`entries, nodes`next
      ensures Valid() && entries == Without(old(entries), id)
      ensures forall x <- nodes :: x in old(nodes)
    {
      if head == null {
        return;
      }
      if head.id == id {
        WithoutAt(entries, id, 0);
        PopFront();
        return;
      }
      var q := head;
      ghost var k := 1;
      while q.next != null && q.next.id != id
        invariant 1 <= k <= |nodes| && q == nodes[k - 1]
        invariant forall i :: 0 <= i < k ==> entries[i].id != id
        decreases |nodes| - k
      {
        assert nodes[k - 1].next == Nth(nodes, k);
        q := q.next;
        k := k + 1;
      }
      assert nodes[k - 1].next == Nth(nodes, k);
      WithoutAt(entries, id, k);
      if q.next != null {
        DropBehind(q, k);
      }
    }

    /**
     * `mdns_priv_send_packets`, run by the timer task from tick count `now` on. The tick count is read afresh for
     * every packet, `delays` later each time; `end` is the last reading.
     */
    method SendPackets(now: nat, delays: seq<nat>) returns (end: nat)
      requires Valid()
      modifies this`actions, this`entries, nodes`queued
      ensures Valid()
      ensures var pass := TimerPass(old(entries), now, delays);
              entries == pass.0 && ActionIds(actions) == ActionIds(old(actions)) + pass.1 && end == pass.2
      ensures old(actions) <= actions && forall p <- actions :: p in old(actions) || p in nodes
    {
      var p, k := FirstUnqueued();
      ghost var n;
      n, end := PostOverdue(p, k, now, delays);
    }

    method FirstUnqueued() returns (p: Packet?, ghost k: nat)
      requires Valid()
      ensures k == QueuedRun(entries) && p == Nth(nodes, k)
    {
      p := head;
      k := 0;
      while p != null && p.queued
        invariant 0 <= k <= |nodes| && p == Nth(nodes, k)
        invariant forall i :: 0 <= i < k ==> entries[i].queued
        decreases |nodes| - k
      {
        assert nodes[k].next == Nth(nodes, k + 1);
        p := p.next;
        k := k + 1;
      }
      QueuedRunIs(entries, k);
    }

    method PostOverdue(first: Packet?, ghost k: nat, now: nat, delays: seq<nat>) returns (ghost n: nat, end: nat)
      requires Valid() && k <= |nodes| && first == Nth(nodes, k)
      modifies this`actions, this`entries, nodes`queued
      ensures Valid() && n == DueRun(old(entries)[k..], now, delays, 0)
      ensures entries == Flagged(old(entries), k, n)
              && end == LastReading(now, delays, if k + n < |entries| then n + 1 else n)
      ensures ActionIds(actions) == ActionIds(old(actions)) + Ids(old(entries)[k..k + n])
      ensures old(actions) <= actions && forall p <- actions :: p in old(actions) || p in nodes
    {
      ghost var q, before := entries, actions;
      n, end := PostRun(first, k, now, delays);
      DueFromIsRun(q, k, n, now, delays);
      IdsOfSlice(before, actions, nodes, q, k, n);
    }

    method PostRun(first: Packet?, ghost k: nat, now: nat, delays: seq<nat>) returns (ghost n: nat, clock: nat)
      requires Valid() && k <= |nodes| && first == Nth(nodes, k)
      modifies this`actions, this`entries, nodes`queued
      ensures Valid() && k + n <= |nodes|
      ensures DueFrom(old(entries), k, n, now, delays)
      ensures k + n < |nodes| ==> !Overdue(old(entries)[k + n].sendAt, Reading(now, delays, n))
      ensures clock == LastReading(now, delays, if k + n < |nodes| then n + 1 else n)
      ensures entries == Flagged(old(entries), k, n)
      ensures nodes == old(nodes) && Posted(old(actions), actions, nodes, k, n)
    {
      ghost var q, before, i := entries, actions, k;
      var p, count := first, 0;
      n, clock := 0, now;
      while p != null
        invariant i == k + n && i <= |nodes| && p == Nth(nodes, i) && n == count
        invariant Valid() && clock == LastReading(now, delays, n)
        invariant DueFrom(q, k, n, now, delays) && entries == Flagged(q, k, n)
        invariant Posted(before, actions, nodes, k, n)
        decreases |nodes| - i
      {
        clock := clock + (if count < |delays| then delays[count] else 0);
        if !Overdue(p.sendAt, clock) {
          break;
        }
        DueOneMore(q, k, n, now, delays);
        PostedOneMore(before, actions, nodes, k, n);
        p := MarkAndPost(p, i);
        i, n, count := i + 1, n + 1, count + 1;
      }
    }

    method MarkAndPost(p: Packet, ghost i: nat) returns (next: Packet?)
      requires Valid() && i < |nodes| && p == nodes[i]
      modifies this`actions, this`entries, p`queued
      ensures Valid() && actions == old(actions) + [p] && next == Nth(nodes, i + 1)
      ensures entries == old(entries)[i := old(entries)[i].(queued := true)]
    {
      p.queued := true;
      actions := actions + [p];
      entries := entries[i := entries[i].(queued := true)];
      next := p.next;
    }

    /** `send_packet`: run the oldest action; `sent` is the packet to be handled, taken off the list. */
    method RunAction() returns (sent: Packet?)
      requires Valid() && actions != []
      modifies this`head, this`nodes, this`entries, this`actions, nodes`queued
      ensures Valid() && actions == old(actions)[1..] && forall x <- nodes :: x in old(nodes)
      ensures if old(nodes) != [] && old(nodes)[0] == old(actions)[0] && old(entries)[0].queued then
                && sent == old(actions)[0] && sent !in nodes && sent.Value() == old(entries)[0].(queued := false)
                && entries == old(entries)[1..]
              else
                sent == null && entries == old(entries)
    {
      var packet := actions[0];
      actions := actions[1..];
      var p := head;
      if p != null && p == packet && p.queued {
        PopFront();
        p.queued := false;
        return p;
      }
      return null;
    }
  }

  /** The packets from `k` on are overdue, each at its own reading. */
  ghost predicate DueFrom(q: seq<Entry>, k: nat, n: nat, now: nat, delays: seq<nat>) {
    k + n <= |q| && forall i :: 0 <= i < n ==> Overdue(q[k + i].sendAt, Reading(now, delays, i))
  }

  lemma DueOneMore(q: seq<Entry>, k: nat, n: nat, now: nat, delays: seq<nat>)
    requires DueFrom(q, k, n, now, delays) && k + n < |q| && Overdue(q[k + n].sendAt, Reading(now, delays, n))
    ensures DueFrom(q, k, n + 1, now, delays)
    ensures Flagged(q, k, n + 1) == Flagged(q, k, n)[k + n := q[k + n].(queued := true)]
  {
  }

  lemma DueFromIsRun(q: seq<Entry>, k: nat, n: nat, now: nat, delays: seq<nat>)
    requires DueFrom(q, k, n, now, delays) && (k + n < |q| ==> !Overdue(q[k + n].sendAt, Reading(now, delays, n)))
    ensures DueRun(q[k..], now, delays, 0) == n
  {
    forall i | 0 <= i < n
      ensures Overdue(q[k..][i].sendAt, Reading(now, delays, 0 + i))
    {
      assert q[k..][i] == q[k + i];
    }
    DueRunIs(q[k..], n, now, delays, 0);
  }

  /** The `n` packets from position `k` on have been added to the actions. */
  ghost predicate Posted(before: seq<Packet>, after: seq<Packet>, nodes: seq<Packet>, k: nat, n: nat) {
    && k + n <= |nodes| && |after| == |before| + n
    && forall i :: 0 <= i < |after| ==> after[i] == if i < |before| then before[i] else nodes[k + i - |before|]
  }

  lemma PostedOneMore(before: seq<Packet>, after: seq<Packet>, nodes: seq<Packet>, k: nat, n: nat)
    requires Posted(before, after, nodes, k, n) && k + n < |nodes|
    ensures Posted(before, after + [nodes[k + n]], nodes, k, n + 1)
  {
  }

  /** The first packet of an identity is the only one. */
  lemma {:induction false} WithoutAt(q: seq<Entry>, id: Id, k: nat)
    requires DistinctIds(q) && k <= |q| && (forall i :: 0 <= i < k ==> q[i].id != id) && (k < |q| ==> q[k].id == id)
    ensures Without(q, id) == if k < |q| then RemoveAt(q, k) else q
    ensures k == 0 && q != [] ==> Without(q, id) == q[1..]
  {
    if q != [] {
      if k > 0 {
        WithoutAt(q[1..], id, k - 1);
        assert Without(q, id) == [q[0]] + Without(q[1..], id);
      } else {
        WithoutAt(q[1..], id, |q[1..]|);
      }
    }
  }

  /** Splicing at the slot is insertion. */
  lemma Inserted(q: seq<Entry>, e: Entry, k: nat)
    requires k <= |q| && (forall i :: 0 <= i < k ==> q[i].sendAt <= e.sendAt) && (k < |q| ==> q[k].sendAt > e.sendAt)
    ensures Insert(q, e) == InsertAt(q, k, e)
    ensures k == 0 ==> Insert(q, e) == [e] + q
  {
    SlotIs(q, e.sendAt, k);
  }

  lemma {:induction false} SlotIs(q: seq<Entry>, t: nat, k: nat)
    requires k <= |q| && (forall i :: 0 <= i < k ==> q[i].sendAt <= t) && (k < |q| ==> q[k].sendAt > t)
    ensures Slot(q, t) == k
  {
    if k > 0 {
      SlotIs(q[1..], t, k - 1);
    }
  }

  lemma {:induction false} DueRunIs(q: seq<Entry>, n: nat, now: nat, delays: seq<nat>, i: nat)
    requires n <= |q| && (n < |q| ==> !Overdue(q[n].sendAt, Reading(now, delays, i + n)))
    requires forall j :: 0 <= j < n ==> Overdue(q[j].sendAt, Reading(now, delays, i + j))
    ensures DueRun(q, now, delays, i) == n
  {
    if n > 0 {
      forall j | 0 <= j < n - 1
        ensures Overdue(q[1..][j].sendAt, Reading(now, delays, i + 1 + j))
      {
        assert Overdue(q[j + 1].sendAt, Reading(now, delays, i + (j + 1)));
      }
      DueRunIs(q[1..], n - 1, now, delays, i + 1);
    }
  }

  lemma {:induction false} QueuedRunIs(q: seq<Entry>, k: nat)
    requires k <= |q| && (forall i :: 0 <= i < k ==> q[i].queued) && (k < |q| ==> !q[k].queued)
    ensures QueuedRun(q) == k
  {
    if k > 0 {
      QueuedRunIs(q[1..], k - 1);
    }
  }

  lemma IdsOfSlice(before: seq<Packet>, actions: seq<Packet>, nodes: seq<Packet>, q: seq<Entry>, k: nat, n: nat)
    requires |q| == |nodes| && (forall i :: 0 <= i < |q| ==> q[i].id == nodes[i].id)
             && Posted(before, actions, nodes, k, n)
    ensures ActionIds(actions) == ActionIds(before) + Ids(q[k..k + n])
    ensures before <= actions && forall p <- actions :: p in before || p in nodes
  {
    var ids, posted := ActionIds(before), Ids(q[k..k + n]);
    assert forall i :: 0 <= i < n ==> posted[i] == q[k + i].id;
    assert forall i :: 0 <= i < |actions| ==> ActionIds(actions)[i] == (ids + posted)[i];
  }

  // ---------------------------------------------------------------- clearing

  lemma {:induction false} FilterAppend(q: seq<Entry>, r: seq<Entry>, keep: Entry -> bool)
    ensures Filter(q + r, keep) == Filter(q, keep) + Filter(r, keep)
  {
    if q == [] {
      assert q + r == r;
    } else {
      assert (q + r)[1..] == q[1..] + r;
      FilterAppend(q[1..], r, keep);
      var mine, fq, fr := if keep(q[0]) then [q[0]] else [], Filter(q[1..], keep), Filter(r, keep);
      assert mine + (fq + fr) == mine + fq + fr;
    }
  }

  lemma FilterOne(e: Entry, keep: Entry -> bool)
    ensures Filter([e], keep) == if keep(e) then [e] else []
  {
    assert [e][1..] == [];
  }

  lemma SamePrefix(q: seq<Entry>, k: nat)
    requires k < |q|
    ensures RemoveAt(q, k)[..k] == q[..k]
  {
  }

  lemma ClearedFirst(q: seq<Entry>, iface: nat, proto: nat)
    requires q != [] && q[0].iface == iface && q[0].proto == proto
    ensures Cleared(q[1..], iface, proto) == Cleared(q, iface, proto)
  {
  }

  /** Dropping a match at `k` does not change what is left after clearing. */
  lemma ClearedDrops(q: seq<Entry>, r: seq<Entry>, k: nat, iface: nat, proto: nat)
    requires k < |q| && q[k].iface == iface && q[k].proto == proto && r == RemoveAt(q, k)
    ensures Cleared(r, iface, proto) == Cleared(q, iface, proto)
  {
    var keep := (e: Entry) => !(e.iface == iface && e.proto == proto);
    assert q == q[..k] + ([q[k]] + q[k + 1..]) && r == q[..k] + q[k + 1..];
    FilterAppend(q[..k], [q[k]] + q[k + 1..], keep);
    FilterAppend([q[k]], q[k + 1..], keep);
    FilterAppend(q[..k], q[k + 1..], keep);
    FilterOne(q[k], keep);
  }

  lemma ClearedKeeps(q: seq<Entry>, k: nat, iface: nat, proto: nat)
    requires 0 < k <= |q| && (k > 1 ==> Cleared(q[..k - 1], iface, proto) == q[..k - 1])
    requires !(q[k - 1].iface == iface && q[k - 1].proto == proto)
    ensures Cleared(q[..k], iface, proto) == q[..k]
  {
    var keep := (e: Entry) => !(e.iface == iface && e.proto == proto);
    assert q[..k] == q[..k - 1] + [q[k - 1]];
    FilterAppend(q[..k - 1], [q[k - 1]], keep);
    FilterOne(q[k - 1], keep);
  }
}
