/**
 * The list of scheduled packets as a sequence, and the protocol by which a timer task and a
 * service task share it: the timer flags due packets and posts one action for each, the
 * service task runs the actions later.
 */
module TxProtocol {
  import opened Basics

  /** The identity of a packet: no two packets ever share one. */
  type Id = nat

  /** A scheduled packet: its identity, and the fields the list operations look at. */
  datatype Entry = Entry(id: Id, sendAt: nat, queued: bool, iface: nat, proto: nat)

  const WRAP := 0x1_0000_0000
  const HALF := 0x8000_0000

  /** `(int32_t)(send_at - now) < 0` on 32-bit tick counts. */
  predicate Overdue(sendAt: nat, now: nat) {
    (sendAt as int - now) % WRAP >= HALF
  }

  lemma OverdueWithoutWrap(sendAt: nat, now: nat)
    requires sendAt < HALF && now < HALF
    ensures Overdue(sendAt, now) <==> sendAt < now
  {
  }

  // ---------------------------------------------------------------- list operations

  /** Where a packet due at `t` goes: before the first one due later. */
  function Slot(q: seq<Entry>, t: nat): (k: nat)
    ensures k <= |q|
  {
    if q == [] || q[0].sendAt > t then 0 else 1 + Slot(q[1..], t)
  }

  function Insert(q: seq<Entry>, e: Entry): seq<Entry> {
    var k := Slot(q, e.sendAt);
    q[..k] + [e] + q[k..]
  }

  function Filter(q: seq<Entry>, keep: Entry -> bool): seq<Entry> {
    if q == [] then [] else (if keep(q[0]) then [q[0]] else []) + Filter(q[1..], keep)
  }

  function Cleared(q: seq<Entry>, iface: nat, proto: nat): seq<Entry> {
    Filter(q, (e: Entry) => !(e.iface == iface && e.proto == proto))
  }

  function Without(q: seq<Entry>, id: Id): seq<Entry> {
    Filter(q, (e: Entry) => e.id != id)
  }

  /**
   * The tick count is read afresh for every packet: what the clock says at reading `i`, each some time after the
   * one before.
   */
  function Reading(now: nat, delays: seq<nat>, i: nat): nat {
    (if i == 0 then now else Reading(now, delays, i - 1)) + (if i < |delays| then delays[i] else 0)
  }

  lemma {:induction false} ReadingsRise(now: nat, delays: seq<nat>, i: nat, j: nat)
    requires i <= j
    ensures now <= Reading(now, delays, i) <= Reading(now, delays, j)
  {
    if i < j {
      ReadingsRise(now, delays, i, j - 1);
    } else if i > 0 {
      ReadingsRise(now, delays, i - 1, i - 1);
    }
  }

  /** The run of overdue packets at the front of an unflagged list, the first of them looked at with reading `i`. */
  function DueRun(q: seq<Entry>, now: nat, delays: seq<nat>, i: nat): (k: nat)
    ensures k <= |q|
  {
    if q == [] || !Overdue(q[0].sendAt, Reading(now, delays, i)) then 0 else 1 + DueRun(q[1..], now, delays, i + 1)
  }

  function QueuedRun(q: seq<Entry>): (k: nat)
    ensures k <= |q|
  {
    if q == [] || !q[0].queued then 0 else 1 + QueuedRun(q[1..])
  }

  /** Set the flag on the `n` packets from `k` on. */
  function Flagged(q: seq<Entry>, k: nat, n: nat): (r: seq<Entry>)
    ensures |r| == |q|
    ensures forall i :: 0 <= i < |q| ==> r[i] == if k <= i < k + n then q[i].(queued := true) else q[i]
  {
    seq(|q|, i requires 0 <= i < |q| => if k <= i < k + n then q[i].(queued := true) else q[i])
  }

  function Ids(q: seq<Entry>): (r: seq<Id>)
    ensures |r| == |q| && forall i :: 0 <= i < |r| ==> r[i] == q[i].id
  {
    if q == [] then [] else [q[0].id] + Ids(q[1..])
  }

  /**
   * The timer's pass: after the flagged front, flag and post every packet of the overdue run. Then the last
   * reading is the time.
   */
  function TimerPass(q: seq<Entry>, now: nat, delays: seq<nat>): (seq<Entry>, seq<Id>, nat) {
    var k := QueuedRun(q);
    var n := DueRun(q[k..], now, delays, 0);
    (Flagged(q, k, n), Ids(q[k..k + n]), LastReading(now, delays, if k + n < |q| then n + 1 else n))
  }

  /** The time after `count` readings. */
  function LastReading(now: nat, delays: seq<nat>, count: nat): nat {
    if count == 0 then now else Reading(now, delays, count - 1)
  }

  // ---------------------------------------------------------------- the shared state

  /**
   * `used` are all identities ever given out; `actions` the pending transmit actions, oldest first. For the
   * theorems: `turns` numbers the packets in the order in which they were last scheduled, `turn` is the next number.
   */
  datatype Shared = Shared(queue: seq<Entry>, actions: seq<Id>, now: nat, used: set<Id>, turns: map<Id, nat>, turn: nat)

  /** What handling a transmitted packet leads to: it is freed, scheduled again, or replaced. */
  datatype Verdict = Drop | Again(ms: nat) | Replace(id: Id, ms: nat)

  datatype Op =
    | Schedule(id: Id, iface: nat, proto: nat, ms: nat)
    | Clear(iface: nat, proto: nat)
    | ClearAll
    | Detach(id: Id)
    | Timer(delays: seq<nat>)
    | RunAction(verdict: Verdict)
    | Wait(ms: nat)

  predicate Ready(s: Shared) {
    s.actions != [] && s.queue != [] && s.queue[0].id == s.actions[0] && s.queue[0].queued
  }

  /** `mdns_priv_send_after`. */
  function Put(s: Shared, e: Entry): Shared {
    s.(queue := Insert(s.queue, e), used := s.used + {e.id}, turns := s.turns[e.id := s.turn], turn := s.turn + 1)
  }

  /** `e` has left the list to be transmitted. */
  function Handled(s: Shared, e: Entry, verdict: Verdict): Shared {
    match verdict
    case Drop => s
    case Again(ms) => Put(s, e.(sendAt := s.now + ms, queued := false))
    case Replace(id, ms) => Put(s, Entry(id, s.now + ms, false, e.iface, e.proto))
  }

  function Apply(s: Shared, op: Op): Shared {
    match op
    case Schedule(id, iface, proto, ms) => Put(s, Entry(id, s.now + ms, false, iface, proto))
    case Clear(iface, proto) => s.(queue := Cleared(s.queue, iface, proto))
    case ClearAll => s.(queue := [])
    case Detach(id) => s.(queue := Without(s.queue, id))
    case Timer(delays) =>
      var (q, posted, now) := TimerPass(s.queue, s.now, delays);
      s.(queue := q, actions := s.actions + posted, now := now)
    case RunAction(verdict) =>
      if s.actions == [] then s
      else if !Ready(s) then s.(actions := s.actions[1..])
      else
        Handled(s.(actions := s.actions[1..], queue := s.queue[1..]), s.queue[0], verdict)
    case Wait(ms) => s.(now := s.now + ms)
  }

  /** New packets have new identities, and the millisecond clock stays below its sign bit. */
  predicate OpOk(s: Shared, op: Op) {
    match op
    case Schedule(id, _, _, ms) => id !in s.used && s.now + ms < HALF
    case RunAction(Again(ms)) => s.now + ms < HALF
    case RunAction(Replace(id, ms)) => id !in s.used && s.now + ms < HALF
    case Timer(delays) => TimerPass(s.queue, s.now, delays).2 < HALF
    case Wait(ms) => s.now + ms < HALF
    case _ => true
  }

  // ---------------------------------------------------------------- the invariant

  /** A packet of this identity is listed and flagged. */
  predicate HasQueued(q: seq<Entry>, id: Id) {
    q != [] && ((q[0].queued && q[0].id == id) || HasQueued(q[1..], id))
  }

  /** The pending actions for packets that are listed and flagged, in order. */
  function Project(xs: seq<Id>, q: seq<Entry>): seq<Id> {
    if xs == [] then []
    else (if HasQueued(q, xs[0]) then [xs[0]] else []) + Project(xs[1..], q)
  }

  /** The identities of the flagged packets, in list order. */
  function QueuedIds(q: seq<Entry>): seq<Id> {
    if q == [] then []
    else (if q[0].queued then [q[0].id] else []) + QueuedIds(q[1..])
  }

  ghost predicate DistinctIds(q: seq<Entry>) {
    forall i, j :: 0 <= i < j < |q| ==> q[i].id != q[j].id
  }

  ghost predicate Distinct<T>(xs: seq<T>) {
    forall i, j :: 0 <= i < j < |xs| ==> xs[i] != xs[j]
  }

  ghost predicate Sorted(q: seq<Entry>) {
    forall i, j :: 0 <= i < j < |q| ==> q[i].sendAt <= q[j].sendAt
  }

  ghost predicate QueuedFirst(q: seq<Entry>) {
    forall i, j :: 0 <= i < j < |q| && q[j].queued ==> q[i].queued
  }

  /** The list alone: no packet twice, by send time, flagged ones in front. */
  ghost predicate InOrder(q: seq<Entry>) {
    DistinctIds(q) && Sorted(q) && QueuedFirst(q)
  }

  ghost predicate EntryOk(s: Shared, e: Entry) {
    && e.id in s.used && e.sendAt < HALF
    && (if e.queued then e.sendAt < s.now else e.id !in s.actions)
  }

  /**
   * The list and the action queue agree: the pending actions, restricted to the packets still
   * listed and flagged, are exactly the flagged packets in list order.
   */
  ghost predicate Agrees(s: Shared) {
    && InOrder(s.queue) && Distinct(s.actions) && s.now < HALF
    && (forall i :: 0 <= i < |s.queue| ==> EntryOk(s, s.queue[i]))
    && (forall i :: 0 <= i < |s.actions| ==> s.actions[i] in s.used)
    && Project(s.actions, s.queue) == QueuedIds(s.queue)
  }

  /** First in, first out: packets due at the same time are listed in the order in which they were scheduled. */
  ghost predicate InTurn(q: seq<Entry>, turns: map<Id, nat>, turn: nat) {
    && (forall i :: 0 <= i < |q| ==> q[i].id in turns && turns[q[i].id] < turn)
    && forall i, j :: 0 <= i < j < |q| && q[i].sendAt == q[j].sendAt ==> turns[q[i].id] < turns[q[j].id]
  }

  /** The lists that are. */
  ghost function Lists(turns: map<Id, nat>, turn: nat): iset<seq<Entry>> {
    iset q: seq<Entry> | InTurn(q, turns, turn)
  }

  ghost predicate Consistent(s: Shared) {
    Agrees(s) && s.queue in Lists(s.turns, s.turn)
  }

  // ---------------------------------------------------------------- flagged packets and their actions

  lemma {:induction false} QueuedIdsAppend(q: seq<Entry>, r: seq<Entry>)
    ensures QueuedIds(q + r) == QueuedIds(q) + QueuedIds(r)
  {
    if q == [] {
      assert q + r == r;
    } else {
      assert (q + r)[1..] == q[1..] + r;
      QueuedIdsAppend(q[1..], r);
      var mine, qs, rs := if q[0].queued then [q[0].id] else [], QueuedIds(q[1..]), QueuedIds(r);
      assert mine + (qs + rs) == mine + qs + rs;
    }
  }

  lemma {:induction false} HasQueuedAppend(q: seq<Entry>, r: seq<Entry>, id: Id)
    ensures HasQueued(q + r, id) <==> HasQueued(q, id) || HasQueued(r, id)
  {
    if q == [] {
      assert q + r == r;
    } else {
      assert (q + r)[1..] == q[1..] + r;
      HasQueuedAppend(q[1..], r, id);
    }
  }

  lemma {:induction false} HasQueuedAt(q: seq<Entry>, id: Id) returns (i: nat)
    requires HasQueued(q, id)
    ensures i < |q| && q[i].queued && q[i].id == id
  {
    if q[0].queued && q[0].id == id {
      return 0;
    }
    i := HasQueuedAt(q[1..], id);
    i := i + 1;
  }

  lemma {:induction false} QueuedAt(q: seq<Entry>, i: nat)
    requires i < |q| && q[i].queued
    ensures HasQueued(q, q[i].id)
  {
    if i > 0 {
      QueuedAt(q[1..], i - 1);
    }
  }

  lemma {:induction false} NoneQueued(q: seq<Entry>)
    requires forall i :: 0 <= i < |q| ==> !q[i].queued
    ensures QueuedIds(q) == [] && forall id :: !HasQueued(q, id)
  {
    if q != [] {
      NoneQueued(q[1..]);
    }
  }

  lemma {:induction false} AllQueued(q: seq<Entry>)
    requires forall i :: 0 <= i < |q| ==> q[i].queued
    ensures QueuedIds(q) == Ids(q)
  {
    if q != [] {
      AllQueued(q[1..]);
    }
  }

  lemma {:induction false} ProjectAppend(xs: seq<Id>, ys: seq<Id>, q: seq<Entry>)
    ensures Project(xs + ys, q) == Project(xs, q) + Project(ys, q)
  {
    if xs == [] {
      assert xs + ys == ys;
    } else {
      assert (xs + ys)[1..] == xs[1..] + ys;
      ProjectAppend(xs[1..], ys, q);
      var mine, ps, qs := if HasQueued(q, xs[0]) then [xs[0]] else [], Project(xs[1..], q), Project(ys, q);
      assert mine + (ps + qs) == mine + ps + qs;
    }
  }

  lemma {:induction false} ProjectAgrees(xs: seq<Id>, q: seq<Entry>, r: seq<Entry>)
    requires forall i :: 0 <= i < |xs| ==> (HasQueued(q, xs[i]) <==> HasQueued(r, xs[i]))
    ensures Project(xs, q) == Project(xs, r)
  {
    if xs != [] {
      ProjectAgrees(xs[1..], q, r);
    }
  }

  lemma {:induction false} ProjectAll(xs: seq<Id>, q: seq<Entry>)
    requires forall i :: 0 <= i < |xs| ==> HasQueued(q, xs[i])
    ensures Project(xs, q) == xs
  {
    if xs != [] {
      ProjectAll(xs[1..], q);
    }
  }

  /** When its action comes up, a packet that is still listed and flagged is at the head of the list. */
  lemma QueuedPacketIsAtHead(s: Shared)
    requires Agrees(s) && s.actions != []
    ensures HasQueued(s.queue, s.actions[0]) <==> Ready(s)
  {
    if HasQueued(s.queue, s.actions[0]) {
      var i := HasQueuedAt(s.queue, s.actions[0]);
      assert s.queue[0].queued;
      assert Project(s.actions, s.queue)[0] == s.actions[0];
    }
  }

  // ---------------------------------------------------------------- every step keeps the invariant

  lemma {:induction false} SlotBetween(q: seq<Entry>, t: nat)
    ensures var k := Slot(q, t);
            (forall i :: 0 <= i < k ==> q[i].sendAt <= t) && (k < |q| ==> q[k].sendAt > t)
  {
    if q != [] && q[0].sendAt <= t {
      SlotBetween(q[1..], t);
    }
  }

  lemma InsertParts(q: seq<Entry>, e: Entry)
    ensures var k, r := Slot(q, e.sendAt), Insert(q, e);
            |r| == |q| + 1 && forall i :: 0 <= i < |r| ==>
                r[i] == if i < k then q[i] else if i == k then e else q[i - 1]
  {
  }

  /**
   * A new packet goes behind everything due no later than it (first in, first out), and so behind all flagged
   * ones, and in front of everything due later; the others stay in their order.
   */
  lemma InsertKeepsOrder(q: seq<Entry>, e: Entry) returns (k: nat)
    requires InOrder(q) && !e.queued && forall i :: 0 <= i < |q| ==> q[i].id != e.id
    requires forall i :: 0 <= i < |q| && q[i].queued ==> q[i].sendAt <= e.sendAt
    ensures k <= |q| && Insert(q, e) == q[..k] + [e] + q[k..] && InOrder(Insert(q, e))
    ensures forall i :: 0 <= i < |q| ==> (i < k <==> q[i].sendAt <= e.sendAt)
  {
    k := Slot(q, e.sendAt);
    SlotBetween(q, e.sendAt);
    assert forall i :: 0 <= i < |q| ==> (i < k <==> q[i].sendAt <= e.sendAt);
    InsertedInOrder(q, e, k, Insert(q, e));
  }

  lemma InsertedInOrder(q: seq<Entry>, e: Entry, k: nat, r: seq<Entry>)
    requires InOrder(q) && !e.queued && k <= |q| && r == q[..k] + [e] + q[k..]
    requires forall i :: 0 <= i < |q| ==> q[i].id != e.id && (i < k <==> q[i].sendAt <= e.sendAt)
    requires forall i :: k <= i < |q| ==> !q[i].queued
    ensures InOrder(r)
  {
    forall i, j | 0 <= i < j < |r|
      ensures r[i].id != r[j].id && r[i].sendAt <= r[j].sendAt && (r[j].queued ==> r[i].queued)
    {
      assert i < k ==> r[i] == q[i];
      assert i > k ==> r[i] == q[i - 1];
      assert j < k ==> r[j] == q[j];
      assert j > k ==> r[j] == q[j - 1];
    }
  }

  lemma InsertKeepsQueued(q: seq<Entry>, e: Entry, id: Id)
    requires !e.queued
    ensures QueuedIds(Insert(q, e)) == QueuedIds(q)
    ensures HasQueued(Insert(q, e), id) <==> HasQueued(q, id)
  {
    var k := Slot(q, e.sendAt);
    assert q[..k] + q[k..] == q;
    NoneQueued([e]);
    QueuedIdsAppend(q[..k] + [e], q[k..]);
    QueuedIdsAppend(q[..k], [e]);
    QueuedIdsAppend(q[..k], q[k..]);
    HasQueuedAppend(q[..k] + [e], q[k..], id);
    HasQueuedAppend(q[..k], [e], id);
    HasQueuedAppend(q[..k], q[k..], id);
  }

  lemma InsertProjects(xs: seq<Id>, q: seq<Entry>, e: Entry)
    requires !e.queued
    ensures Project(xs, Insert(q, e)) == Project(xs, q) && QueuedIds(Insert(q, e)) == QueuedIds(q)
  {
    forall i | 0 <= i < |xs|
      ensures HasQueued(Insert(q, e), xs[i]) <==> HasQueued(q, xs[i])
    {
      InsertKeepsQueued(q, e, xs[i]);
    }
    InsertKeepsQueued(q, e, e.id);
    ProjectAgrees(xs, Insert(q, e), q);
  }

  lemma InsertEntriesOk(s: Shared, e: Entry)
    requires (forall i :: 0 <= i < |s.queue| ==> EntryOk(s, s.queue[i])) && !e.queued && e.sendAt < HALF
             && e.id !in s.actions
    ensures forall i :: 0 <= i < |Put(s, e).queue| ==> EntryOk(Put(s, e), Put(s, e).queue[i])
  {
    InsertParts(s.queue, e);
    forall i | 0 <= i < |s.queue|
      ensures EntryOk(Put(s, e), s.queue[i])
    {
      assert EntryOk(s, s.queue[i]);
    }
  }

  lemma InsertAgrees(s: Shared, e: Entry) returns (r: Shared)
    requires Agrees(s) && !e.queued && s.now <= e.sendAt < HALF
    requires e.id !in s.actions && forall i :: 0 <= i < |s.queue| ==> s.queue[i].id != e.id
    ensures r == Put(s, e) && Agrees(r)
  {
    r := Put(s, e);
    assert forall i :: 0 <= i < |s.queue| ==> EntryOk(s, s.queue[i]);
    var k := InsertKeepsOrder(s.queue, e);
    InsertEntriesOk(s, e);
    InsertProjects(s.actions, s.queue, e);
  }

  lemma {:induction false} FilterSource(q: seq<Entry>, keep: Entry -> bool, j: nat) returns (i: nat)
    requires j < |Filter(q, keep)|
    ensures i < |q| && q[i] == Filter(q, keep)[j] && keep(q[i])
  {
    if keep(q[0]) && j == 0 {
      return 0;
    }
    i := FilterSource(q[1..], keep, if keep(q[0]) then j - 1 else j);
    i := i + 1;
  }

  lemma {:induction false} FilterKeepsOrder(q: seq<Entry>, keep: Entry -> bool)
    requires InOrder(q)
    ensures InOrder(Filter(q, keep))
  {
    if q != [] {
      FilterKeepsOrder(q[1..], keep);
      var t := Filter(q[1..], keep);
      forall j | 0 <= j < |t|
        ensures q[0].id != t[j].id && q[0].sendAt <= t[j].sendAt && (t[j].queued ==> q[0].queued)
      {
        var i := FilterSource(q[1..], keep, j);
        assert q[i + 1] == t[j];
      }
      FrontKeepsOrder(if keep(q[0]) then [q[0]] else [], t);
    }
  }

  lemma FrontKeepsOrder(h: seq<Entry>, t: seq<Entry>)
    requires |h| <= 1 && InOrder(t)
    requires forall i, j :: 0 <= i < |h| && 0 <= j < |t| ==>
               h[i].id != t[j].id && h[i].sendAt <= t[j].sendAt && (t[j].queued ==> h[i].queued)
    ensures InOrder(h + t)
  {
  }

  /** Removing packets removes the same identities from both sides. */
  lemma {:induction false} FilterQueued(q: seq<Entry>, keep: Entry -> bool, id: Id)
    requires DistinctIds(q)
    ensures HasQueued(Filter(q, keep), id) <==> exists i :: 0 <= i < |q| && q[i].queued && q[i].id == id && keep(q[i])
  {
    if q != [] {
      FilterQueued(q[1..], keep, id);
      HasQueuedAppend(if keep(q[0]) then [q[0]] else [], Filter(q[1..], keep), id);
      if HasQueued(Filter(q[1..], keep), id) {
        var i :| 0 <= i < |q[1..]| && q[1..][i].queued && q[1..][i].id == id && keep(q[1..][i]);
        assert q[i + 1].id == id;
      }
      if i :| 0 <= i < |q| && q[i].queued && q[i].id == id && keep(q[i]) {
        if i > 0 {
          assert q[1..][i - 1] == q[i];
        }
      }
    }
  }

  lemma {:induction false} ProjectTwice(xs: seq<Id>, q: seq<Entry>, r: seq<Entry>)
    requires forall i :: 0 <= i < |xs| && HasQueued(r, xs[i]) ==> HasQueued(q, xs[i])
    ensures Project(Project(xs, q), r) == Project(xs, r)
  {
    if xs != [] {
      ProjectTwice(xs[1..], q, r);
      ProjectAppend(if HasQueued(q, xs[0]) then [xs[0]] else [], Project(xs[1..], q), r);
    }
  }

  lemma {:induction false} ProjectFiltered(q: seq<Entry>, keep: Entry -> bool)
    requires DistinctIds(q)
    ensures Project(QueuedIds(q), Filter(q, keep)) == QueuedIds(Filter(q, keep))
  {
    if q != [] {
      var h, t := if keep(q[0]) then [q[0]] else [], Filter(q[1..], keep);
      var mine := if q[0].queued then [q[0].id] else [];
      ProjectFiltered(q[1..], keep);
      ProjectAppend(mine, QueuedIds(q[1..]), h + t);
      QueuedIdsAppend(h, t);
      FilterQueued(q, keep, q[0].id);
      OthersUnaffected(q[1..], h, t);
    }
  }

  /** A packet of another identity in front makes no difference. */
  lemma {:induction false} OthersUnaffected(q: seq<Entry>, h: seq<Entry>, t: seq<Entry>)
    requires forall i, j :: 0 <= i < |q| && 0 <= j < |h| ==> q[i].id != h[j].id
    ensures Project(QueuedIds(q), h + t) == Project(QueuedIds(q), t)
  {
    if q != [] {
      OthersUnaffected(q[1..], h, t);
      if q[0].queued {
        HasQueuedAppend(h, t, q[0].id);
        if HasQueued(h, q[0].id) {
          var j := HasQueuedAt(h, q[0].id);
        }
      } else {
        assert QueuedIds(q) == QueuedIds(q[1..]);
      }
    }
  }

  lemma FilterAgrees(s: Shared, keep: Entry -> bool) returns (s': Shared)
    requires Agrees(s)
    ensures s' == s.(queue := Filter(s.queue, keep)) && Agrees(s')
  {
    s' := s.(queue := Filter(s.queue, keep));
    var r := Filter(s.queue, keep);
    FilterKeepsOrder(s.queue, keep);
    forall j | 0 <= j < |r|
      ensures EntryOk(s, r[j])
    {
      var i := FilterSource(s.queue, keep, j);
    }
    forall i | 0 <= i < |s.actions| && HasQueued(r, s.actions[i])
      ensures HasQueued(s.queue, s.actions[i])
    {
      FilterQueued(s.queue, keep, s.actions[i]);
      var j :| 0 <= j < |s.queue| && s.queue[j].queued && s.queue[j].id == s.actions[i];
      QueuedAt(s.queue, j);
    }
    ProjectTwice(s.actions, s.queue, r);
    ProjectFiltered(s.queue, keep);
  }

  // ---------------------------------------------------------------- the timer

  lemma {:induction false} QueuedRunIsPrefix(q: seq<Entry>)
    requires QueuedFirst(q)
    ensures forall i :: 0 <= i < |q| ==> (q[i].queued <==> i < QueuedRun(q))
  {
    if q != [] {
      if q[0].queued {
        QueuedRunIsPrefix(q[1..]);
        assert forall i :: 1 <= i < |q| ==> q[i] == q[1..][i - 1];
      }
    }
  }

  lemma {:induction false} DueRunOverdue(q: seq<Entry>, now: nat, delays: seq<nat>, i: nat)
    ensures forall j :: 0 <= j < DueRun(q, now, delays, i) ==> Overdue(q[j].sendAt, Reading(now, delays, i + j))
  {
    if q != [] && Overdue(q[0].sendAt, Reading(now, delays, i)) {
      DueRunOverdue(q[1..], now, delays, i + 1);
      var n := DueRun(q, now, delays, i);
      forall j | 0 <= j < n
        ensures Overdue(q[j].sendAt, Reading(now, delays, i + j))
      {
        if j > 0 {
          assert Overdue(q[1..][j - 1].sendAt, Reading(now, delays, i + 1 + (j - 1)));
        }
      }
    }
  }

  lemma {:induction false} DueRunEnds(q: seq<Entry>, now: nat, delays: seq<nat>, i: nat)
    ensures var n := DueRun(q, now, delays, i); n < |q| ==> !Overdue(q[n].sendAt, Reading(now, delays, i + n))
  {
    if q != [] && Overdue(q[0].sendAt, Reading(now, delays, i)) {
      DueRunEnds(q[1..], now, delays, i + 1);
    }
  }

  /** What stands behind a packet that is not overdue is not overdue. */
  lemma NoneOverdueBehind(s: Shared, q: seq<Entry>, j: nat, now: nat)
    requires Agrees(s) && q == s.queue && now < HALF && j < |q| && !Overdue(q[j].sendAt, now)
    ensures forall i :: j <= i < |q| ==> !Overdue(q[i].sendAt, now)
  {
    forall i | j <= i < |q|
      ensures !Overdue(q[i].sendAt, now)
    {
      assert EntryOk(s, q[i]) && EntryOk(s, q[j]);
      assert q[j].sendAt <= q[i].sendAt;
      OverdueWithoutWrap(q[j].sendAt, now);
      OverdueWithoutWrap(q[i].sendAt, now);
    }
  }

  /**
   * After a timer pass no packet is overdue and yet without an action: the list being sorted, stopping early
   * is right, and what has become due since it was passed over became so later.
   */
  lemma TimerLeavesNoneBehind(s: Shared, delays: seq<nat>, r: seq<Entry>, posted: seq<Id>, now: nat)
    requires Agrees(s) && TimerPass(s.queue, s.now, delays) == (r, posted, now) && now < HALF
    ensures s.now <= now && forall i :: 0 <= i < |r| && Overdue(r[i].sendAt, now) ==> r[i].queued
  {
    var q := s.queue;
    var k, n, end := TimerParts(q, s.now, delays);
    if k + n < |q| {
      DueRunEnds(q[k..], s.now, delays, 0);
      assert q[k..][n] == q[k + n] && Reading(s.now, delays, 0 + n) == now;
      NoneOverdueBehind(s, q, k + n, now);
    }
  }

  /** A timer pass flags a run of overdue packets right behind those flagged before. */
  lemma TimerParts(q: seq<Entry>, now: nat, delays: seq<nat>) returns (k: nat, n: nat, end: nat)
    requires QueuedFirst(q)
    ensures k == QueuedRun(q) && n == DueRun(q[k..], now, delays, 0)
    ensures k + n <= |q| && TimerPass(q, now, delays) == (Flagged(q, k, n), Ids(q[k..k + n]), end)
    ensures forall i :: 0 <= i < |q| ==> (q[i].queued <==> i < k)
    ensures now <= end && forall i :: k <= i < k + n ==> OverdueBy(q[i].sendAt, end)
    ensures k + n < |q| ==> end == Reading(now, delays, n)
  {
    k := QueuedRun(q);
    n := DueRun(q[k..], now, delays, 0);
    end := LastReading(now, delays, if k + n < |q| then n + 1 else n);
    QueuedRunIsPrefix(q);
    LastReadingIsLast(now, delays, if k + n < |q| then n + 1 else n);
    DueRunOverdueBy(q[k..], now, delays, n, end);
    forall i | k <= i < k + n
      ensures OverdueBy(q[i].sendAt, end)
    {
      assert q[k..][i - k] == q[i];
    }
  }

  lemma LastReadingIsLast(now: nat, delays: seq<nat>, count: nat)
    ensures now <= LastReading(now, delays, count)
    ensures forall i :: 0 <= i < count ==> Reading(now, delays, i) <= LastReading(now, delays, count)
  {
    forall i | 0 <= i < count
      ensures now <= Reading(now, delays, i) <= LastReading(now, delays, count)
    {
      ReadingsRise(now, delays, i, count - 1);
    }
    assert count > 0 ==> now <= Reading(now, delays, 0) <= LastReading(now, delays, count);
  }

  lemma DueRunOverdueBy(q: seq<Entry>, now: nat, delays: seq<nat>, n: nat, end: nat)
    requires n == DueRun(q, now, delays, 0) && forall i :: 0 <= i < n ==> Reading(now, delays, i) <= end
    ensures forall i :: 0 <= i < n ==> OverdueBy(q[i].sendAt, end)
  {
    DueRunOverdue(q, now, delays, 0);
    forall i | 0 <= i < n
      ensures OverdueBy(q[i].sendAt, end)
    {
      assert Overdue(q[i].sendAt, Reading(now, delays, 0 + i));
    }
  }

  /** It was overdue at some time until then. */
  ghost predicate OverdueBy(sendAt: nat, now: nat) {
    exists t: nat :: t <= now && Overdue(sendAt, t)
  }

  lemma OverdueByWithoutWrap(sendAt: nat, now: nat)
    requires sendAt < HALF && now < HALF && OverdueBy(sendAt, now)
    ensures sendAt < now
  {
    var t: nat :| t <= now && Overdue(sendAt, t);
    OverdueWithoutWrap(sendAt, t);
  }

  lemma FrontQueuedIds(a: seq<Entry>, c: seq<Entry>)
    requires forall i :: 0 <= i < |a| ==> a[i].queued
    requires forall i :: 0 <= i < |c| ==> !c[i].queued
    ensures QueuedIds(a + c) == Ids(a)
  {
    AllQueued(a);
    NoneQueued(c);
    QueuedIdsAppend(a, c);
  }

  /** Flagging the stretch `m` (giving `b`) between flagged `a` and unflagged `c`. */
  lemma MiddleFlagged(a: seq<Entry>, m: seq<Entry>, b: seq<Entry>, c: seq<Entry>)
    requires forall i :: 0 <= i < |a| ==> a[i].queued
    requires forall i :: 0 <= i < |m| ==> !m[i].queued
    requires forall i :: 0 <= i < |c| ==> !c[i].queued
    requires |b| == |m| && forall i :: 0 <= i < |m| ==> b[i] == m[i].(queued := true)
    ensures QueuedIds(a + (b + c)) == QueuedIds(a + (m + c)) + Ids(m)
  {
    FrontQueuedIds(a, m + c);
    FrontQueuedIds(b, c);
    AllQueued(a);
    QueuedIdsAppend(a, b + c);
    assert Ids(b) == Ids(m);
  }

  lemma TimerQueuedIds(q: seq<Entry>, r: seq<Entry>, k: nat, n: nat, m: seq<Entry>)
    requires k + n <= |q| && r == Flagged(q, k, n) && m == q[k..k + n]
    requires forall i :: 0 <= i < |q| ==> (q[i].queued <==> i < k)
    ensures QueuedIds(r) == QueuedIds(q) + Ids(m)
  {
    var a, b, c := q[..k], r[k..k + n], q[k + n..];
    assert q == a + (m + c) && r == a + (b + c);
    MiddleFlagged(a, m, b, c);
  }

  /** Flagging behind the flagged front keeps the order. */
  lemma FlaggedInOrder(q: seq<Entry>, r: seq<Entry>, k: nat, n: nat)
    requires InOrder(q) && k + n <= |q| && r == Flagged(q, k, n)
    requires forall i :: 0 <= i < |q| ==> (q[i].queued <==> i < k)
    ensures InOrder(r)
  {
  }

  /** The identities posted were not pending before. */
  lemma PostedAreNew(s: Shared, posted: seq<Id>, k: nat, n: nat)
    requires Agrees(s) && k + n <= |s.queue| && posted == Ids(s.queue[k..k + n])
    requires forall i :: 0 <= i < |s.queue| ==> (s.queue[i].queued <==> i < k)
    ensures Distinct(s.actions + posted)
    ensures forall i :: 0 <= i < |posted| ==> posted[i] == s.queue[k + i].id && posted[i] in s.used
  {
    forall i | 0 <= i < |posted|
      ensures posted[i] == s.queue[k + i].id && posted[i] in s.used && posted[i] !in s.actions
    {
      assert EntryOk(s, s.queue[k + i]);
    }
    DistinctBoth(s.actions, posted);
  }

  lemma DistinctBoth(xs: seq<Id>, ys: seq<Id>)
    requires Distinct(xs) && Distinct(ys) && forall i :: 0 <= i < |ys| ==> ys[i] !in xs
    ensures Distinct(xs + ys)
  {
  }

  lemma TimerEntriesOk(s: Shared, r: seq<Entry>, posted: seq<Id>, k: nat, n: nat, now: nat)
    requires Agrees(s) && k + n <= |s.queue| && r == Flagged(s.queue, k, n) && posted == Ids(s.queue[k..k + n])
    requires forall i :: 0 <= i < |s.queue| ==> (s.queue[i].queued <==> i < k)
    requires s.now <= now < HALF && forall i :: k <= i < k + n ==> OverdueBy(s.queue[i].sendAt, now)
    ensures forall i :: 0 <= i < |r| ==> EntryOk(s.(actions := s.actions + posted, now := now), r[i])
  {
    PostedAreNew(s, posted, k, n);
    forall i | 0 <= i < |r|
      ensures EntryOk(s.(actions := s.actions + posted, now := now), r[i])
    {
      assert EntryOk(s, s.queue[i]);
      if k <= i < k + n {
        OverdueByWithoutWrap(s.queue[i].sendAt, now);
      }
    }
  }

  /** The actions pending before are about the same packets. */
  lemma OldActionsProject(s: Shared, r: seq<Entry>, k: nat, n: nat)
    requires Agrees(s) && k + n <= |s.queue| && r == Flagged(s.queue, k, n)
    requires forall i :: 0 <= i < |r| ==> (s.queue[i].queued <==> i < k)
    ensures Project(s.actions, r) == Project(s.actions, s.queue)
  {
    var q := s.queue;
    forall i | 0 <= i < |s.actions|
      ensures HasQueued(r, s.actions[i]) <==> HasQueued(q, s.actions[i])
    {
      forall j | k <= j < k + n
        ensures q[j].id != s.actions[i]
      {
        assert EntryOk(s, q[j]);
      }
      SameFlags(q, r, k, n, s.actions[i]);
      SameFlags(r, q, k, n, s.actions[i]);
    }
    ProjectAgrees(s.actions, r, q);
  }

  lemma NewActionsProject(q: seq<Entry>, r: seq<Entry>, posted: seq<Id>, k: nat, n: nat)
    requires k + n <= |q| && r == Flagged(q, k, n) && posted == Ids(q[k..k + n])
    ensures Project(posted, r) == posted
  {
    forall i | 0 <= i < |posted|
      ensures HasQueued(r, posted[i])
    {
      QueuedAt(r, k + i);
    }
    ProjectAll(posted, r);
  }

  lemma TimerProjects(s: Shared, r: seq<Entry>, posted: seq<Id>, k: nat, n: nat)
    requires Agrees(s) && k + n <= |s.queue| && r == Flagged(s.queue, k, n) && posted == Ids(s.queue[k..k + n])
    requires forall i :: 0 <= i < |r| ==> (s.queue[i].queued <==> i < k)
    ensures Project(s.actions + posted, r) == QueuedIds(r)
  {
    TimerQueuedIds(s.queue, r, k, n, s.queue[k..k + n]);
    OldActionsProject(s, r, k, n);
    NewActionsProject(s.queue, r, posted, k, n);
    ProjectAppend(s.actions, posted, r);
  }

  lemma TimerAgrees(s: Shared, delays: seq<nat>) returns (s': Shared)
    requires Agrees(s) && OpOk(s, Timer(delays))
    ensures s' == Apply(s, Timer(delays)) && Agrees(s')
  {
    var k, n, now := TimerParts(s.queue, s.now, delays);
    var r, posted := Flagged(s.queue, k, n), Ids(s.queue[k..k + n]);
    FlaggedInOrder(s.queue, r, k, n);
    PostedAreNew(s, posted, k, n);
    TimerEntriesOk(s, r, posted, k, n, now);
    TimerProjects(s, r, posted, k, n);
    s' := s.(queue := r, actions := s.actions + posted, now := now);
  }

  /** A packet flagged in one list and not among the newly flagged is flagged in the other. */
  lemma SameFlags(q: seq<Entry>, r: seq<Entry>, k: nat, n: nat, a: Id)
    requires |r| == |q| && k + n <= |q|
    requires forall i :: 0 <= i < |q| ==> r[i].id == q[i].id && (i < k || k + n <= i ==> r[i].queued == q[i].queued)
    requires forall i :: k <= i < k + n ==> q[i].id != a
    ensures HasQueued(q, a) ==> HasQueued(r, a)
  {
    if HasQueued(q, a) {
      var i := HasQueuedAt(q, a);
      QueuedAt(r, i);
    }
  }

  // ---------------------------------------------------------------- running an action

  lemma HeadSkipped(s: Shared) returns (s': Shared)
    requires Agrees(s) && s.actions != [] && !Ready(s)
    ensures s' == s.(actions := s.actions[1..]) && Agrees(s')
  {
    QueuedPacketIsAtHead(s);
    s' := s.(actions := s.actions[1..]);
    forall i | 0 <= i < |s.queue|
      ensures EntryOk(s', s.queue[i])
    {
      assert EntryOk(s, s.queue[i]);
    }
  }

  lemma HeadTaken(s: Shared) returns (s': Shared)
    requires Agrees(s) && Ready(s)
    ensures s' == s.(actions := s.actions[1..], queue := s.queue[1..]) && Agrees(s')
    ensures s.queue[0].id in s.used && s.queue[0].id !in s'.actions
    ensures forall i :: 0 <= i < |s'.queue| ==> s'.queue[i].id != s.queue[0].id
  {
    s' := s.(actions := s.actions[1..], queue := s.queue[1..]);
    forall i | 0 <= i < |s'.queue|
      ensures EntryOk(s', s'.queue[i])
    {
      assert EntryOk(s, s.queue[i + 1]);
    }
    assert EntryOk(s, s.queue[0]);
    ProjectAgrees(s'.actions, s.queue, s'.queue);
    assert Project(s.actions, s.queue)[1..] == Project(s'.actions, s.queue);
    assert QueuedIds(s.queue)[1..] == QueuedIds(s'.queue);
  }

  /** An identity never given out belongs to no packet and no action. */
  lemma NewIdentity(s: Shared, id: Id)
    requires Agrees(s) && id !in s.used
    ensures id !in s.actions && forall i :: 0 <= i < |s.queue| ==> s.queue[i].id != id
  {
    assert forall i :: 0 <= i < |s.queue| ==> EntryOk(s, s.queue[i]);
  }

  lemma AgainAgrees(s: Shared, e: Entry, ms: nat) returns (r: Shared)
    requires Agrees(s) && s.now + ms < HALF
    requires e.id !in s.actions && forall i :: 0 <= i < |s.queue| ==> s.queue[i].id != e.id
    ensures r == Put(s, e.(sendAt := s.now + ms, queued := false)) && Agrees(r)
  {
    r := InsertAgrees(s, e.(sendAt := s.now + ms, queued := false));
  }

  lemma PutAgrees(s: Shared, id: Id, iface: nat, proto: nat, ms: nat) returns (r: Shared)
    requires Agrees(s) && id !in s.used && s.now + ms < HALF
    ensures r == Put(s, Entry(id, s.now + ms, false, iface, proto)) && Agrees(r)
  {
    NewIdentity(s, id);
    r := InsertAgrees(s, Entry(id, s.now + ms, false, iface, proto));
  }

  lemma ActionAgrees(s: Shared, v: Verdict) returns (r: Shared)
    requires Agrees(s) && OpOk(s, RunAction(v))
    ensures r == Apply(s, RunAction(v)) && Agrees(r)
  {
    r := s;
    if s.actions != [] {
      if Ready(s) {
        var e := s.queue[0];
        r := HeadTaken(s);
        match v
        case Drop =>
        case Again(ms) => r := AgainAgrees(r, e, ms);
        case Replace(id, ms) => r := PutAgrees(r, id, e.iface, e.proto, ms);
      } else {
        r := HeadSkipped(s);
      }
    }
  }

  lemma WaitAgrees(s: Shared, ms: nat) returns (r: Shared)
    requires Agrees(s) && s.now + ms < HALF
    ensures r == s.(now := s.now + ms) && Agrees(r)
  {
    r := s.(now := s.now + ms);
    forall i | 0 <= i < |s.queue|
      ensures EntryOk(r, s.queue[i])
    {
      assert EntryOk(s, s.queue[i]);
    }
  }

  lemma StepAgrees(s: Shared, op: Op) returns (r: Shared)
    requires Agrees(s) && OpOk(s, op)
    ensures r == Apply(s, op) && Agrees(r)
  {
    match op
    case Schedule(id, iface, proto, ms) => r := PutAgrees(s, id, iface, proto, ms);
    case Clear(iface, proto) => r := FilterAgrees(s, (e: Entry) => !(e.iface == iface && e.proto == proto));
    case ClearAll => r := ClearAllAgrees(s);
    case Detach(id) => r := FilterAgrees(s, (e: Entry) => e.id != id);
    case Timer(delays) => r := TimerAgrees(s, delays);
    case RunAction(v) => r := ActionAgrees(s, v);
    case Wait(ms) => r := WaitAgrees(s, ms);
  }

  lemma ClearAllAgrees(s: Shared) returns (r: Shared)
    requires Agrees(s)
    ensures r == s.(queue := []) && Agrees(r)
  {
    r := s.(queue := []);
    NothingProjects(s.actions);
  }

  lemma {:induction false} NothingProjects(xs: seq<Id>)
    ensures Project(xs, []) == []
  {
    if xs != [] {
      NothingProjects(xs[1..]);
    }
  }

  // ---------------------------------------------------------------- first in, first out

  lemma InsertInTurn(q: seq<Entry>, e: Entry, k: nat, r: seq<Entry>, turns: map<Id, nat>, turn: nat)
    requires InTurn(q, turns, turn) && k <= |q| && r == q[..k] + [e] + q[k..]
    requires forall i :: 0 <= i < |q| ==> q[i].id != e.id && (i < k <==> q[i].sendAt <= e.sendAt)
    ensures InTurn(r, turns[e.id := turn], turn + 1)
  {
    var turns' := turns[e.id := turn];
    assert forall i :: 0 <= i < |r| ==> r[i] == if i < k then q[i] else if i == k then e else q[i - 1];
    forall i, j | 0 <= i < j < |r| && r[i].sendAt == r[j].sendAt
      ensures turns'[r[i].id] < turns'[r[j].id]
    {
      assert i != k;
      if j != k {
        assert turns'[r[i].id] == turns[r[i].id] && turns'[r[j].id] == turns[r[j].id];
      }
    }
  }

  lemma SlotDivides(q: seq<Entry>, e: Entry) returns (k: nat)
    requires Sorted(q)
    ensures k <= |q| && Insert(q, e) == q[..k] + [e] + q[k..]
    ensures forall i :: 0 <= i < |q| ==> (i < k <==> q[i].sendAt <= e.sendAt)
  {
    k := Slot(q, e.sendAt);
    SlotBetween(q, e.sendAt);
    forall i | 0 <= i < |q|
      ensures i < k <==> q[i].sendAt <= e.sendAt
    {
      assert k <= i ==> q[k].sendAt <= q[i].sendAt;
    }
  }

  lemma PutInTurn(s: Shared, e: Entry) returns (r: Shared)
    requires s.queue in Lists(s.turns, s.turn) && Sorted(s.queue)
    requires forall i :: 0 <= i < |s.queue| ==> s.queue[i].id != e.id
    ensures r == Put(s, e) && r.queue in Lists(r.turns, r.turn)
  {
    r := Put(s, e);
    var k := SlotDivides(s.queue, e);
    InsertInTurn(s.queue, e, k, r.queue, s.turns, s.turn);
  }

  lemma {:induction false} FilterInTurn(q: seq<Entry>, keep: Entry -> bool, turns: map<Id, nat>, turn: nat)
    requires InTurn(q, turns, turn)
    ensures InTurn(Filter(q, keep), turns, turn)
  {
    if q != [] {
      FilterInTurn(q[1..], keep, turns, turn);
      var h, t := if keep(q[0]) then [q[0]] else [], Filter(q[1..], keep);
      forall j | 0 <= j < |t| && q[0].sendAt == t[j].sendAt
        ensures turns[q[0].id] < turns[t[j].id]
      {
        var i := FilterSource(q[1..], keep, j);
        assert q[i + 1] == t[j];
      }
      assert forall i :: 0 <= i < |h + t| ==> (h + t)[i] == if i < |h| then h[i] else t[i - |h|];
    }
  }

  lemma FilteredInTurn(s: Shared, keep: Entry -> bool) returns (r: Shared)
    requires s.queue in Lists(s.turns, s.turn)
    ensures r == s.(queue := Filter(s.queue, keep)) && r.queue in Lists(r.turns, r.turn)
  {
    FilterInTurn(s.queue, keep, s.turns, s.turn);
    r := s.(queue := Filter(s.queue, keep));
  }

  lemma FlaggedInTurn(q: seq<Entry>, r: seq<Entry>, turns: map<Id, nat>, turn: nat)
    requires q in Lists(turns, turn) && |r| == |q|
    requires forall i :: 0 <= i < |q| ==> r[i].id == q[i].id && r[i].sendAt == q[i].sendAt
    ensures r in Lists(turns, turn)
  {
  }

  lemma TailInTurn(q: seq<Entry>, turns: map<Id, nat>, turn: nat)
    requires q in Lists(turns, turn) && q != []
    ensures q[1..] in Lists(turns, turn)
  {
    var r := q[1..];
    assert forall i :: 0 <= i < |r| ==> r[i] == q[i + 1];
  }

  lemma NewInTurn(s: Shared, id: Id, iface: nat, proto: nat, ms: nat) returns (r: Shared)
    requires Agrees(s) && s.queue in Lists(s.turns, s.turn) && id !in s.used
    ensures r == Put(s, Entry(id, s.now + ms, false, iface, proto)) && r.queue in Lists(r.turns, r.turn)
  {
    NewIdentity(s, id);
    r := PutInTurn(s, Entry(id, s.now + ms, false, iface, proto));
  }

  lemma AgainInTurn(s: Shared, e: Entry, ms: nat) returns (r: Shared)
    requires s.queue in Lists(s.turns, s.turn) && Agrees(s) && forall i :: 0 <= i < |s.queue| ==> s.queue[i].id != e.id
    ensures r == Put(s, e.(sendAt := s.now + ms, queued := false)) && r.queue in Lists(r.turns, r.turn)
  {
    r := PutInTurn(s, e.(sendAt := s.now + ms, queued := false));
  }

  lemma TakenInTurn(s: Shared) returns (r: Shared)
    requires Consistent(s) && Ready(s)
    ensures r == s.(actions := s.actions[1..], queue := s.queue[1..]) && Consistent(r)
    ensures s.queue[0].id !in r.actions && forall i :: 0 <= i < |r.queue| ==> r.queue[i].id != s.queue[0].id
  {
    TailInTurn(s.queue, s.turns, s.turn);
    r := HeadTaken(s);
  }

  lemma ActionInTurn(s: Shared, v: Verdict) returns (r: Shared)
    requires Consistent(s) && OpOk(s, RunAction(v))
    ensures r == Apply(s, RunAction(v)) && r.queue in Lists(r.turns, r.turn)
  {
    r := s;
    if s.actions != [] && Ready(s) {
      var e := s.queue[0];
      r := TakenInTurn(s);
      match v
      case Drop =>
      case Again(ms) => r := AgainInTurn(r, e, ms);
      case Replace(id, ms) => r := NewInTurn(r, id, e.iface, e.proto, ms);
    } else if s.actions != [] {
      r := s.(actions := s.actions[1..]);
    }
  }

  lemma TimerInTurn(s: Shared, delays: seq<nat>) returns (r: Shared)
    requires Consistent(s)
    ensures r == Apply(s, Timer(delays)) && r.queue in Lists(r.turns, r.turn)
  {
    r := Apply(s, Timer(delays));
    var k, n, now := TimerParts(s.queue, s.now, delays);
    FlaggedInTurn(s.queue, r.queue, s.turns, s.turn);
  }

  lemma EmptiedInTurn(s: Shared) returns (r: Shared)
    ensures r == s.(queue := []) && r.queue in Lists(r.turns, r.turn)
  {
    r := s.(queue := []);
  }

  lemma LaterInTurn(s: Shared, ms: nat) returns (r: Shared)
    requires s.queue in Lists(s.turns, s.turn)
    ensures r == s.(now := s.now + ms) && r.queue in Lists(r.turns, r.turn)
  {
    r := s.(now := s.now + ms);
  }

  lemma StepInTurn(s: Shared, op: Op) returns (r: Shared)
    requires Consistent(s) && OpOk(s, op)
    ensures r == Apply(s, op) && r.queue in Lists(r.turns, r.turn)
  {
    match op
    case Schedule(id, iface, proto, ms) => r := NewInTurn(s, id, iface, proto, ms);
    case Clear(iface, proto) => r := FilteredInTurn(s, (e: Entry) => !(e.iface == iface && e.proto == proto));
    case ClearAll => r := EmptiedInTurn(s);
    case Detach(id) => r := FilteredInTurn(s, (e: Entry) => e.id != id);
    case Timer(delays) => r := TimerInTurn(s, delays);
    case RunAction(v) => r := ActionInTurn(s, v);
    case Wait(ms) => r := LaterInTurn(s, ms);
  }

  lemma StepConsistent(s: Shared, op: Op) returns (r: Shared)
    requires Consistent(s) && OpOk(s, op)
    ensures r == Apply(s, op) && Consistent(r)
  {
    r := StepAgrees(s, op);
    var r' := StepInTurn(s, op);
  }

  // ---------------------------------------------------------------- what each step does

  /** `r` is what stands at the places `f` of `q`, in the same order. */
  ghost predicate Picks(q: seq<Entry>, r: seq<Entry>, f: seq<nat>) {
    && |f| == |r| && (forall j :: 0 <= j < |r| ==> f[j] < |q| && r[j] == q[f[j]])
    && forall i, j :: 0 <= i < j < |f| ==> f[i] < f[j]
  }

  lemma Shifted(f: seq<nat>) returns (up: seq<nat>)
    ensures |up| == |f| && forall j :: 0 <= j < |f| ==> up[j] == f[j] + 1
    ensures forall i: int :: i in up <==> i - 1 in f
  {
    up := seq(|f|, j requires 0 <= j < |f| => f[j] + 1);
    forall i: int | i - 1 in f
      ensures i in up
    {
      var j :| 0 <= j < |f| && f[j] == i - 1;
      assert up[j] == i;
    }
  }

  lemma PickedBehind(q: seq<Entry>, t: seq<Entry>, f: seq<nat>, h: seq<Entry>) returns (g: seq<nat>)
    requires q != [] && Picks(q[1..], t, f) && (h == [q[0]] || h == [])
    ensures Picks(q, h + t, g)
    ensures forall i: int :: i in g <==> (i == 0 && h != []) || i - 1 in f
  {
    var up := Shifted(f);
    assert Picks(q, t, up) && (forall i <- up :: i > 0) by {
      assert forall j :: 0 <= j < |f| ==> q[1..][f[j]] == q[up[j]];
    }
    if h == [] {
      assert h + t == t;
      g := up;
    } else {
      g := [0] + up;
    }
  }

  lemma {:induction false} FilterPicks(q: seq<Entry>, keep: Entry -> bool) returns (f: seq<nat>)
    ensures Picks(q, Filter(q, keep), f)
    ensures forall i :: 0 <= i < |q| ==> (i in f <==> keep(q[i]))
  {
    if q == [] {
      return [];
    }
    var g := FilterPicks(q[1..], keep);
    f := PickedBehind(q, Filter(q[1..], keep), g, if keep(q[0]) then [q[0]] else []);
    forall i | 0 <= i < |q|
      ensures i in f <==> keep(q[i])
    {
      assert i > 0 ==> q[1..][i - 1] == q[i];
    }
  }

  /** Clearing takes exactly the packets of one interface and protocol off the list, and changes nothing else. */
  lemma ClearRemoves(s: Shared, iface: nat, proto: nat) returns (f: seq<nat>)
    ensures var r := Apply(s, Clear(iface, proto));
            && Picks(s.queue, r.queue, f)
            && (forall i :: 0 <= i < |s.queue| ==> (i in f <==> s.queue[i].iface != iface || s.queue[i].proto != proto))
            && r.actions == s.actions && r.now == s.now && r.used == s.used
  {
    f := FilterPicks(s.queue, (e: Entry) => !(e.iface == iface && e.proto == proto));
  }

  /** Detaching takes exactly the one packet off the list; its action, if it had one, stays and is skipped later. */
  lemma DetachRemoves(s: Shared, id: Id) returns (f: seq<nat>)
    ensures var r := Apply(s, Detach(id));
            && Picks(s.queue, r.queue, f)
            && (forall i :: 0 <= i < |s.queue| ==> (i in f <==> s.queue[i].id != id))
            && r.actions == s.actions && r.now == s.now && r.used == s.used
    ensures Apply(s, ClearAll) == s.(queue := [])
  {
    f := FilterPicks(s.queue, (e: Entry) => e.id != id);
  }

  /** Scheduling lists the new packet behind everything due no later, due `ms` from now; all others stay. */
  lemma ScheduleAdds(s: Shared, id: Id, iface: nat, proto: nat, ms: nat) returns (k: nat)
    requires Consistent(s) && OpOk(s, Schedule(id, iface, proto, ms))
    ensures k <= |s.queue| && forall i :: 0 <= i < |s.queue| ==> (i < k <==> s.queue[i].sendAt <= s.now + ms)
    ensures var r := Apply(s, Schedule(id, iface, proto, ms));
            && r.queue == s.queue[..k] + [Entry(id, s.now + ms, false, iface, proto)] + s.queue[k..]
            && r.actions == s.actions && r.now == s.now
  {
    k := Slot(s.queue, s.now + ms);
    SlotBetween(s.queue, s.now + ms);
  }

  /** The timer flags packets not flagged before, all overdue, posts their actions in order, and misses none. */
  lemma TimerActs(s: Shared, delays: seq<nat>) returns (k: nat, n: nat, posted: seq<Id>)
    requires Consistent(s) && OpOk(s, Timer(delays))
    ensures k + n <= |s.queue| && |posted| == n && forall j :: 0 <= j < n ==> posted[j] == s.queue[k + j].id
    ensures var r := Apply(s, Timer(delays));
            && s.now <= r.now && |r.queue| == |s.queue|
            && (forall i :: 0 <= i < |s.queue| ==>
                  && r.queue[i] == (if k <= i < k + n then s.queue[i].(queued := true) else s.queue[i])
                  && (k <= i < k + n ==> !s.queue[i].queued && s.queue[i].sendAt < r.now)
                  && (Overdue(s.queue[i].sendAt, r.now) ==> r.queue[i].queued))
            && r.actions == s.actions + posted
  {
    var q := s.queue;
    var r := StepConsistent(s, Timer(delays));
    var end;
    k, n, end := TimerParts(q, s.now, delays);
    posted := Ids(q[k..k + n]);
    TimerLeavesNoneBehind(s, delays, r.queue, posted, end);
    forall i | 0 <= i < |q|
      ensures k <= i < k + n ==> !q[i].queued && q[i].sendAt < r.now
      ensures Overdue(q[i].sendAt, r.now) ==> r.queue[i].queued
    {
      assert EntryOk(r, r.queue[i]);
    }
  }

  /** From the second packet on, `k` parts those due by `t` from those due later. */
  ghost predicate Placed(q: seq<Entry>, k: nat, t: nat) {
    forall i :: 1 <= i < |q| ==> (i < k <==> q[i].sendAt <= t)
  }

  lemma SlotBehindHead(s: Shared, e: Entry) returns (k: nat)
    requires s.queue != []
    ensures 1 <= k <= |s.queue| && Insert(s.queue[1..], e) == s.queue[1..k] + [e] + s.queue[k..]
    ensures Sorted(s.queue) ==> Placed(s.queue, k, e.sendAt)
  {
    SlotBetween(s.queue[1..], e.sendAt);
    k := 1 + Slot(s.queue[1..], e.sendAt);
  }

  /** What comes back into the list after the head has left it. */
  function Returning(s: Shared, v: Verdict): Entry
    requires !v.Drop? && s.queue != []
  {
    Entry(if v.Again? then s.queue[0].id else v.id, s.now + v.ms, false, s.queue[0].iface, s.queue[0].proto)
  }

  /**
   * The service task takes up the oldest action: when its packet is the flagged head, it leaves the list, for
   * good, to come back unflagged `ms` from now, or to make room for a new packet due then; else nothing but the
   * action goes.
   */
  lemma ActionTakes(s: Shared, v: Verdict) returns (k: nat)
    requires Consistent(s) && OpOk(s, RunAction(v))
    ensures var r := Apply(s, RunAction(v));
            && r.now == s.now && (s.actions == [] ==> r == s)
            && (s.actions != [] ==> r.actions == s.actions[1..])
            && (s.actions != [] && !HasQueued(s.queue, s.actions[0]) ==> r.queue == s.queue)
    ensures s.actions != [] && HasQueued(s.queue, s.actions[0]) ==>
              var r := Apply(s, RunAction(v));
              && s.queue[0].id == s.actions[0]
              && (v.Drop? ==> r.queue == s.queue[1..])
              && (!v.Drop? ==>
                    && 1 <= k <= |s.queue| && Placed(s.queue, k, s.now + v.ms)
                    && r.queue == s.queue[1..k] + [Returning(s, v)] + s.queue[k..])
  {
    k := 0;
    if s.actions != [] {
      QueuedPacketIsAtHead(s);
      if Ready(s) && !v.Drop? {
        k := SlotBehindHead(s, Returning(s, v));
      }
    }
  }

  function Run(s: Shared, ops: seq<Op>): Shared
    decreases |ops|
  {
    if ops == [] then s else Run(Apply(s, ops[0]), ops[1..])
  }

  predicate AllOk(s: Shared, ops: seq<Op>)
    decreases |ops|
  {
    ops == [] || (OpOk(s, ops[0]) && AllOk(Apply(s, ops[0]), ops[1..]))
  }

  /**
   * In every state the two tasks can reach, the list is in order of send time, packets due at the same time in the
   * order in which they were scheduled, with the flagged packets in front; and a packet whose action comes up is
   * either gone from the list or at its head.
   */
  lemma {:induction false} ProtocolSafe(s: Shared, ops: seq<Op>)
    requires Consistent(s) && AllOk(s, ops)
    ensures var s' := Run(s, ops);
            && Consistent(s')
            && (s'.actions != [] && HasQueued(s'.queue, s'.actions[0]) ==> Ready(s'))
    decreases |ops|
  {
    if ops == [] {
      if s.actions != [] {
        QueuedPacketIsAtHead(s);
      }
    } else {
      var s' := StepConsistent(s, ops[0]);
      ProtocolSafe(s', ops[1..]);
    }
  }
}
