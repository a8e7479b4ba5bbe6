/**
 * Mail groups and the key-value store behind them, as values: what one save writes, what a load makes of
 * a store that also holds the keys of deleted groups and removed recipients, and why they agree.
 */
module MailStore {
  import opened Basics
  import opened DnsNames
  import opened Renaming

  /** The text in a fixed buffer: what comes before the NUL. */
  type Text = seq<byte>

  const GROUPS := 10
  const RECIPIENTS := 20
  const NAME_CAP := 48
  const SUBJECT_CAP := 128
  const BODY_CAP := 512
  const EMAIL_CAP := 96

  datatype Group = Group(used: bool, enabled: bool, name: Text, subject: Text, body: Text, slots: seq<Text>, count: nat)

  function NoRecipients(): (slots: seq<Text>)
    ensures |slots| == RECIPIENTS && forall r :: 0 <= r < RECIPIENTS ==> slots[r] == []
  {
    [[], [], [], [], [], [], [], [], [], [], [], [], [], [], [], [], [], [], [], []]
  }

  /** A slot after `memset`. */
  function Zero(): Group {
    Group(false, false, [], [], [], NoRecipients(), 0)
  }

  datatype Entry = U8(value: nat) | Str(text: Text)

  type Store = map<seq<byte>, Entry>

  // ---------------------------------------------------------------- keys

  const USED: Text := [117, 115, 101, 100]
  const ENABLED: Text := [101, 110]
  const NAME: Text := [110, 109]
  const SUBJECT: Text := [115, 98]
  const BODY: Text := [98, 100]
  const COUNT: Text := [114, 99]

  /** `g<i>_<suffix>`. */
  function KeyFor(i: nat, suffix: Text): seq<byte> {
    [103] + Decimal(i) + [95] + suffix
  }

  function SlotSuffix(r: nat): Text {
    [114] + Decimal(r)
  }

  lemma KeyInjective(i: nat, a: Text, j: nat, b: Text)
    ensures KeyFor(i, a) == KeyFor(j, b) ==> i == j && a == b
  {
    var x, y, k, l := KeyFor(i, a), KeyFor(j, b), |Decimal(i)|, |Decimal(j)|;
    if x == y {
      assert x[k + 1] == 95 && y[l + 1] == 95;
      assert forall p :: 0 <= p < k ==> x[p + 1] == Decimal(i)[p];
      assert forall p :: 0 <= p < l ==> y[p + 1] == Decimal(j)[p];
      assert k == l;
      assert x[1..k + 1] == Decimal(i) && y[1..l + 1] == Decimal(j);
      assert x[k + 2..] == a && y[l + 2..] == b;
      ValueOfDecimal(i);
      ValueOfDecimal(j);
    }
  }

  lemma SlotSuffixInjective(r: nat, q: nat)
    ensures SlotSuffix(r) == SlotSuffix(q) ==> r == q
    ensures SlotSuffix(r) != COUNT && SlotSuffix(r)[0] == 114
  {
    ValueOfDecimal(r);
    ValueOfDecimal(q);
    assert SlotSuffix(r)[1..] == Decimal(r) && SlotSuffix(q)[1..] == Decimal(q);
    assert IsDigit(SlotSuffix(r)[1]);
  }

  // ---------------------------------------------------------------- saving and loading

  function GetU8(store: Store, key: seq<byte>): Option<nat> {
    if key in store && store[key].U8? then Some(store[key].value) else None
  }

  /** `nvs_get_str` into a buffer of `cap` bytes that holds `before`. */
  function GetStr(store: Store, key: seq<byte>, cap: nat, before: Text): Text {
    if key in store && store[key].Str? && |store[key].text| < cap then store[key].text else before
  }

  function PutSlots(store: Store, i: nat, slots: seq<Text>, r: nat, count: nat): Store
    requires count <= |slots|
    decreases count - r
  {
    if r >= count then store
    else PutSlots(store[KeyFor(i, SlotSuffix(r)) := Str(slots[r])], i, slots, r + 1, count)
  }

  /** `save_group`: an unused group writes its mark alone. */
  function Saved(store: Store, i: nat, g: Group): Store
    requires g.count <= |g.slots|
  {
    if !g.used then store[KeyFor(i, USED) := U8(0)]
    else
      PutSlots(store[KeyFor(i, USED) := U8(1)][KeyFor(i, ENABLED) := U8(if g.enabled then 1 else 0)]
                    [KeyFor(i, NAME) := Str(g.name)][KeyFor(i, SUBJECT) := Str(g.subject)]
                    [KeyFor(i, BODY) := Str(g.body)][KeyFor(i, COUNT) := U8(g.count)],
               i, g.slots, 0, g.count)
  }

  function LoadedSlots(store: Store, i: nat, slots: seq<Text>, r: nat, count: nat): (s: seq<Text>)
    requires |slots| == RECIPIENTS
    ensures |s| == RECIPIENTS
    decreases RECIPIENTS - r
  {
    if r >= count || r >= RECIPIENTS then slots
    else LoadedSlots(store, i, slots[r := GetStr(store, KeyFor(i, SlotSuffix(r)), EMAIL_CAP, slots[r])], r + 1, count)
  }

  /** `load_group` into a zeroed slot. */
  function Loaded(store: Store, i: nat): Group {
    var used := GetU8(store, KeyFor(i, USED));
    if used.None? || used.value == 0 then Zero()
    else
      var enabled, count := GetU8(store, KeyFor(i, ENABLED)), GetU8(store, KeyFor(i, COUNT));
      var n := if count.Some? then count.value else 0;
      Group(true, if enabled.Some? then enabled.value != 0 else true,
            GetStr(store, KeyFor(i, NAME), NAME_CAP, []), GetStr(store, KeyFor(i, SUBJECT), SUBJECT_CAP, []),
            GetStr(store, KeyFor(i, BODY), BODY_CAP, []), LoadedSlots(store, i, NoRecipients(), 0, n), n)
  }

  /** What a slot in memory always is: texts that fit, free slots zeroed, and all zero when not used. */
  ghost predicate Proper(g: Group) {
    && |g.slots| == RECIPIENTS && g.count <= RECIPIENTS
    && |g.name| < NAME_CAP && |g.subject| < SUBJECT_CAP && |g.body| < BODY_CAP
    && (forall r :: 0 <= r < RECIPIENTS ==> |g.slots[r]| < EMAIL_CAP && (r >= g.count ==> g.slots[r] == []))
    && (!g.used ==> g == Zero())
  }

  lemma {:induction false} PutSlotsMiss(store: Store, i: nat, slots: seq<Text>, r: nat, count: nat, key: seq<byte>)
    requires count <= |slots| && forall q :: r <= q < count ==> key != KeyFor(i, SlotSuffix(q))
    ensures var s := PutSlots(store, i, slots, r, count);
            (key in s <==> key in store) && (key in s ==> s[key] == store[key])
    decreases count - r
  {
    if r < count {
      PutSlotsMiss(store[KeyFor(i, SlotSuffix(r)) := Str(slots[r])], i, slots, r + 1, count, key);
    }
  }

  lemma {:induction false} PutSlotsHit(store: Store, i: nat, slots: seq<Text>, r: nat, count: nat, q: nat)
    requires r <= q < count <= |slots|
    ensures var s, key := PutSlots(store, i, slots, r, count), KeyFor(i, SlotSuffix(q));
            key in s && s[key] == Str(slots[q])
    decreases count - r
  {
    var next := store[KeyFor(i, SlotSuffix(r)) := Str(slots[r])];
    if q == r {
      forall p | r + 1 <= p < count
        ensures KeyFor(i, SlotSuffix(q)) != KeyFor(i, SlotSuffix(p))
      {
        KeyInjective(i, SlotSuffix(q), i, SlotSuffix(p));
        SlotSuffixInjective(q, p);
      }
      PutSlotsMiss(next, i, slots, r + 1, count, KeyFor(i, SlotSuffix(q)));
    } else {
      PutSlotsHit(next, i, slots, r + 1, count, q);
    }
  }

  /** None of the keys of other groups is touched. */
  lemma SavedElsewhere(store: Store, i: nat, g: Group, j: nat, suffix: Text)
    requires g.count <= |g.slots| && i != j
    ensures var s, key := Saved(store, i, g), KeyFor(j, suffix);
            (key in s <==> key in store) && (key in s ==> s[key] == store[key])
  {
    var key := KeyFor(j, suffix);
    KeyInjective(i, USED, j, suffix);
    KeyInjective(i, ENABLED, j, suffix);
    KeyInjective(i, NAME, j, suffix);
    KeyInjective(i, SUBJECT, j, suffix);
    KeyInjective(i, BODY, j, suffix);
    KeyInjective(i, COUNT, j, suffix);
    if g.used {
      forall q | 0 <= q < g.count
        ensures key != KeyFor(i, SlotSuffix(q))
      {
        KeyInjective(i, SlotSuffix(q), j, suffix);
      }
      var six := store[KeyFor(i, USED) := U8(1)][KeyFor(i, ENABLED) := U8(if g.enabled then 1 else 0)]
                      [KeyFor(i, NAME) := Str(g.name)][KeyFor(i, SUBJECT) := Str(g.subject)]
                      [KeyFor(i, BODY) := Str(g.body)][KeyFor(i, COUNT) := U8(g.count)];
      PutSlotsMiss(six, i, g.slots, 0, g.count, key);
    }
  }

  lemma {:induction false} LoadedSlotsAgree(s: Store, t: Store, i: nat, slots: seq<Text>, r: nat, count: nat)
    requires |slots| == RECIPIENTS
    requires forall q ::
               var key := KeyFor(i, SlotSuffix(q)); (key in s <==> key in t) && (key in s ==> s[key] == t[key])
    ensures LoadedSlots(s, i, slots, r, count) == LoadedSlots(t, i, slots, r, count)
    decreases RECIPIENTS - r
  {
    if r < count && r < RECIPIENTS {
      LoadedSlotsAgree(s, t, i, slots[r := GetStr(s, KeyFor(i, SlotSuffix(r)), EMAIL_CAP, slots[r])], r + 1, count);
    }
  }

  /** Loading another group is not affected. */
  lemma LoadedElsewhere(store: Store, i: nat, g: Group, j: nat)
    requires g.count <= |g.slots| && i != j
    ensures Loaded(Saved(store, i, g), j) == Loaded(store, j)
  {
    var s := Saved(store, i, g);
    forall suffix
      ensures var key := KeyFor(j, suffix); (key in s <==> key in store) && (key in s ==> s[key] == store[key])
    {
      SavedElsewhere(store, i, g, j, suffix);
    }
    assert GetU8(s, KeyFor(j, USED)) == GetU8(store, KeyFor(j, USED));
    var count := GetU8(s, KeyFor(j, COUNT));
    LoadedSlotsAgree(s, store, j, NoRecipients(), 0, if count.Some? then count.value else 0);
  }

  lemma {:induction false} LoadedSlotsAt(store: Store, i: nat, slots: seq<Text>, r: nat, count: nat, q: nat)
    requires |slots| == RECIPIENTS && q < RECIPIENTS && count <= RECIPIENTS
    ensures LoadedSlots(store, i, slots, r, count)[q] ==
            if r <= q < count then GetStr(store, KeyFor(i, SlotSuffix(q)), EMAIL_CAP, slots[q]) else slots[q]
    decreases RECIPIENTS - r
  {
    if r < count {
      LoadedSlotsAt(store, i, slots[r := GetStr(store, KeyFor(i, SlotSuffix(r)), EMAIL_CAP, slots[r])],
                    r + 1, count, q);
    }
  }

  /** The six plain keys of a group are different from each other and from those of its recipients. */
  lemma OwnKeysDiffer(i: nat, a: Text, b: Text)
    requires a != b
    ensures KeyFor(i, a) != KeyFor(i, b)
  {
    KeyInjective(i, a, i, b);
  }

  /** What the store says under the plain keys after a used group was saved. */
  lemma SavedPlain(store: Store, i: nat, g: Group, s: Store)
    requires g.used && g.count <= |g.slots| && s == Saved(store, i, g)
    ensures GetU8(s, KeyFor(i, USED)) == Some(1) && GetU8(s, KeyFor(i, ENABLED)) == Some(if g.enabled then 1 else 0)
    ensures GetU8(s, KeyFor(i, COUNT)) == Some(g.count)
    ensures forall cap, before :: |g.name| < cap ==> GetStr(s, KeyFor(i, NAME), cap, before) == g.name
    ensures forall cap, before :: |g.subject| < cap ==> GetStr(s, KeyFor(i, SUBJECT), cap, before) == g.subject
    ensures forall cap, before :: |g.body| < cap ==> GetStr(s, KeyFor(i, BODY), cap, before) == g.body
  {
    var six := store[KeyFor(i, USED) := U8(1)][KeyFor(i, ENABLED) := U8(if g.enabled then 1 else 0)]
                    [KeyFor(i, NAME) := Str(g.name)][KeyFor(i, SUBJECT) := Str(g.subject)]
                    [KeyFor(i, BODY) := Str(g.body)][KeyFor(i, COUNT) := U8(g.count)];
    var plain := [USED, ENABLED, NAME, SUBJECT, BODY, COUNT];
    forall k | 0 <= k < 6
      ensures var key := KeyFor(i, plain[k]); key in s && s[key] == six[key]
    {
      forall q | 0 <= q < g.count
        ensures KeyFor(i, plain[k]) != KeyFor(i, SlotSuffix(q))
      {
        SlotSuffixInjective(q, q);
        OwnKeysDiffer(i, plain[k], SlotSuffix(q));
      }
      PutSlotsMiss(six, i, g.slots, 0, g.count, KeyFor(i, plain[k]));
    }
    forall k, l | 0 <= k < l < 6
      ensures KeyFor(i, plain[k]) != KeyFor(i, plain[l])
    {
      OwnKeysDiffer(i, plain[k], plain[l]);
    }
    assert plain[0] == USED && plain[1] == ENABLED && plain[2] == NAME;
    assert plain[3] == SUBJECT && plain[4] == BODY && plain[5] == COUNT;
  }

  /** Loading what was just saved gives it back, whatever else the store holds. */
  lemma SaveThenLoad(store: Store, i: nat, g: Group)
    requires Proper(g)
    ensures Loaded(Saved(store, i, g), i) == g
  {
    var s := Saved(store, i, g);
    if g.used {
      SavedPlain(store, i, g, s);
      var slots := LoadedSlots(s, i, NoRecipients(), 0, g.count);
      forall q | 0 <= q < RECIPIENTS
        ensures slots[q] == g.slots[q]
      {
        LoadedSlotsAt(s, i, NoRecipients(), 0, g.count, q);
        if q < g.count {
          SavedSlot(store, i, g, s, q);
        }
      }
      assert slots == g.slots;
    }
  }

  lemma SavedSlot(store: Store, i: nat, g: Group, s: Store, q: nat)
    requires g.used && q < g.count <= |g.slots| && s == Saved(store, i, g)
    ensures var key := KeyFor(i, SlotSuffix(q)); key in s && s[key] == Str(g.slots[q])
  {
    var six := store[KeyFor(i, USED) := U8(1)][KeyFor(i, ENABLED) := U8(if g.enabled then 1 else 0)]
                    [KeyFor(i, NAME) := Str(g.name)][KeyFor(i, SUBJECT) := Str(g.subject)]
                    [KeyFor(i, BODY) := Str(g.body)][KeyFor(i, COUNT) := U8(g.count)];
    PutSlotsHit(six, i, g.slots, 0, g.count, q);
  }

  // ---------------------------------------------------------------- commands

  datatype State = State(groups: seq<Group>, store: Store)

  datatype Reply = Ok | MissingArg | NotFound | InvalidArg | Busy

  datatype Field = NameField | SubjectField | BodyField

  datatype Op =
    | Add(name: Option<Text>)
    | Delete(id: int)
    | Enable(id: int, on: bool)
    | Edit(id: int, field: Field, text: Text)
    | AddRecipient(id: int, email: Text)
    | RemoveRecipient(id: int, email: Text)
    | FactoryReset
    | Reboot

  const AT: byte := 64

  /** `strncpy` into a buffer of `cap` bytes whose last byte stays NUL. */
  function Fit(t: Text, cap: nat): (r: Text)
    requires cap > 0
    ensures |r| < cap && (|t| < cap ==> r == t)
  {
    if |t| < cap then t else t[..cap - 1]
  }

  function FirstFree(groups: seq<Group>): (i: nat)
    ensures i <= |groups| && (i < |groups| ==> !groups[i].used) && forall j :: 0 <= j < i ==> groups[j].used
  {
    if groups == [] || !groups[0].used then 0 else 1 + FirstFree(groups[1..])
  }

  /** `group <i>`. */
  function DefaultName(i: nat): Text {
    [103, 114, 111, 117, 112, 32] + Decimal(i)
  }

  function NewGroup(i: nat, name: Option<Text>): Group {
    Zero().(used := true, enabled := true, name := Fit(if name.Some? then name.value else DefaultName(i), NAME_CAP))
  }

  function Edited(g: Group, field: Field, text: Text): Group {
    match field
    case NameField => g.(name := Fit(text, NAME_CAP))
    case SubjectField => g.(subject := Fit(text, SUBJECT_CAP))
    case BodyField => g.(body := Fit(text, BODY_CAP))
  }

  /** The first recipient that is `email` up to case, or the number of recipients. */
  function Find(slots: seq<Text>, count: nat, email: Text): (r: nat)
    requires count <= |slots|
    ensures r <= count && (r < count ==> Same(slots[r], email)) && forall q :: 0 <= q < r ==> !Same(slots[q], email)
  {
    if count == 0 || Same(slots[0], email) then 0 else 1 + Find(slots[1..], count - 1, email)
  }

  /** The gap at `found` closed and the slot that became free zeroed. */
  function Shifted(slots: seq<Text>, count: nat, found: nat): (r: seq<Text>)
    requires found < count <= |slots|
    ensures |r| == |slots|
    ensures forall q :: 0 <= q < |r| ==>
              r[q] == if q < found then slots[q] else if q < count - 1 then slots[q + 1]
                      else if q == count - 1 then [] else slots[q]
  {
    seq(|slots|, q requires 0 <= q < |slots| =>
      if q < found then slots[q] else if q < count - 1 then slots[q + 1] else if q == count - 1 then [] else slots[q])
  }

  predicate Known(s: State, id: int) {
    0 <= id < GROUPS && id < |s.groups|
  }

  ghost predicate AllProper(groups: seq<Group>) {
    |groups| == GROUPS && forall i :: 0 <= i < GROUPS ==> Proper(groups[i])
  }

  function Replaced(s: State, i: nat, g: Group): State
    requires i < |s.groups| && g.count <= |g.slots|
  {
    State(s.groups[i := g], Saved(s.store, i, g))
  }

  /** `load_all`, for the first `n` groups. */
  function LoadedAll(store: Store, n: nat): (groups: seq<Group>)
    ensures |groups| == n && forall i :: 0 <= i < n ==> groups[i] == Loaded(store, i)
  {
    if n == 0 then [] else LoadedAll(store, n - 1) + [Loaded(store, n - 1)]
  }

  function Zeros(): (groups: seq<Group>)
    ensures |groups| == GROUPS && forall i :: 0 <= i < GROUPS ==> groups[i] == Zero()
  {
    [Zero(), Zero(), Zero(), Zero(), Zero(), Zero(), Zero(), Zero(), Zero(), Zero()]
  }

  /** The group after a command on it, or the reason it is refused. */
  datatype Change = Change(reply: Reply, group: Group)

  function RecipientAdded(g: Group, email: Text): Change
    requires g.count <= |g.slots|
  {
    if email == [] then Change(MissingArg, g)
    else if !g.used then Change(NotFound, g)
    else if AT !in email then Change(InvalidArg, g)
    else if g.count >= RECIPIENTS || g.count >= |g.slots| then Change(Busy, g)
    else if Find(g.slots, g.count, email) < g.count then Change(InvalidArg, g)
    else Change(Ok, g.(slots := g.slots[g.count := Fit(email, EMAIL_CAP)], count := g.count + 1))
  }

  function RecipientRemoved(g: Group, email: Text): Change
    requires g.count <= |g.slots|
  {
    if email == [] then Change(MissingArg, g)
    else if !g.used then Change(NotFound, g)
    else
      var found := Find(g.slots, g.count, email);
      if found == g.count then Change(NotFound, g)
      else Change(Ok, g.(slots := Shifted(g.slots, g.count, found), count := g.count - 1))
  }

  ghost function OnGroup(g: Group, op: Op): Change
    requires Proper(g)
  {
    match op
    case Delete(_) => if g.used then Change(Ok, Zero()) else Change(NotFound, g)
    case Enable(_, on) => if g.used then Change(Ok, g.(enabled := on)) else Change(NotFound, g)
    case Edit(_, field, text) =>
      if !g.used then Change(NotFound, g)
      else if text == [] then Change(MissingArg, g)
      else Change(Ok, Edited(g, field, text))
    case AddRecipient(_, email) => RecipientAdded(g, email)
    case RemoveRecipient(_, email) => RecipientRemoved(g, email)
    case _ => Change(Ok, g)
  }

  ghost function Apply(s: State, op: Op): (State, Reply)
    requires AllProper(s.groups)
  {
    match op
    case Add(name) =>
      var i := FirstFree(s.groups);
      if i == |s.groups| then (s, Busy) else (Replaced(s, i, NewGroup(i, name)), Ok)
    case FactoryReset => (State(Zeros(), map[]), Ok)
    case Reboot => (State(LoadedAll(s.store, |s.groups|), s.store), Ok)
    case _ =>
      if !Known(s, op.id) then (s, MissingArg)
      else
        OnGroupProper(s.groups[op.id], op);
        var change := OnGroup(s.groups[op.id], op);
        if change.reply.Ok? then (Replaced(s, op.id, change.group), Ok) else (s, change.reply)
  }

  // ---------------------------------------------------------------- what each command changes

  /** All groups but one are as they were. */
  ghost predicate OnlyGroup(s: State, t: State, i: nat) {
    |t.groups| == |s.groups| && forall j :: 0 <= j < |s.groups| && j != i ==> t.groups[j] == s.groups[j]
  }

  /** Deleting clears a used group out; the reason it is refused is the id, or that the group is not used. */
  lemma DeleteDoes(s: State, id: int)
    requires AllProper(s.groups)
    ensures var (t, reply) := Apply(s, Delete(id));
            && reply == (if id < 0 || id >= GROUPS then MissingArg else if !s.groups[id].used then NotFound else Ok)
            && (reply != Ok ==> t == s)
            && (reply == Ok ==> OnlyGroup(s, t, id) && !t.groups[id].used && t.groups[id] == Zero())
  {
  }

  /** Enabling sets the one switch. */
  lemma EnableDoes(s: State, id: int, on: bool)
    requires AllProper(s.groups)
    ensures var (t, reply) := Apply(s, Enable(id, on));
            && reply == (if id < 0 || id >= GROUPS then MissingArg else if !s.groups[id].used then NotFound else Ok)
            && (reply != Ok ==> t == s)
            && (reply == Ok ==>
                  OnlyGroup(s, t, id) && t.groups[id].enabled == on
                  && t.groups[id].(enabled := false) == s.groups[id].(enabled := false))
  {
  }

  /** The text as far as a buffer of `cap` bytes holds it. */
  predicate Holds(kept: Text, text: Text, cap: nat) {
    cap > 0 && kept == if |text| < cap then text else text[..cap - 1]
  }

  /** Editing puts the text, cut to the buffer, into the field named, and leaves the other fields. */
  lemma EditDoes(s: State, id: int, field: Field, text: Text)
    requires AllProper(s.groups)
    ensures var (t, reply) := Apply(s, Edit(id, field, text));
            && reply == (if id < 0 || id >= GROUPS then MissingArg else if !s.groups[id].used then NotFound
                         else if text == [] then MissingArg else Ok)
            && (reply != Ok ==> t == s)
            && (reply == Ok ==>
                  && OnlyGroup(s, t, id)
                  && var g, h := s.groups[id], t.groups[id];
                     && h.used && h.enabled == g.enabled && h.slots == g.slots && h.count == g.count
                     && (if field.NameField? then Holds(h.name, text, 48) else h.name == g.name)
                     && (if field.SubjectField? then Holds(h.subject, text, 128) else h.subject == g.subject)
                     && (if field.BodyField? then Holds(h.body, text, 512) else h.body == g.body))
  {
  }

  /** Adding takes the first slot that is free: enabled, with the name given or `group <i>`, and nothing else in it. */
  lemma AddDoes(s: State, name: Option<Text>, i: nat)
    requires AllProper(s.groups) && i <= GROUPS && (forall j :: 0 <= j < i ==> s.groups[j].used)
    requires i < GROUPS ==> !s.groups[i].used
    ensures var (t, reply) := Apply(s, Add(name));
            && reply == (if i == GROUPS then Busy else Ok)
            && (reply != Ok ==> t == s)
            && (reply == Ok ==>
                  && OnlyGroup(s, t, i)
                  && var h := t.groups[i];
                     && h.used && h.enabled && h.subject == [] && h.body == [] && h.count == 0
                     && h.slots == NoRecipients()
                     && Holds(h.name, if name.Some? then name.value else DefaultName(i), 48))
  {
    assert FirstFree(s.groups) == i;
  }

  ghost predicate Lists(g: Group, email: Text) {
    g.count <= |g.slots| && exists r :: 0 <= r < g.count && Same(g.slots[r], email)
  }

  /** A recipient is put behind the others, cut to its buffer; the refusals come in the order of the checks. */
  lemma AddRecipientDoes(s: State, id: int, email: Text)
    requires AllProper(s.groups)
    ensures var (t, reply) := Apply(s, AddRecipient(id, email));
            && reply == (if id < 0 || id >= GROUPS || email == [] then MissingArg
                         else if !s.groups[id].used then NotFound
                         else if AT !in email then InvalidArg
                         else if s.groups[id].count >= RECIPIENTS then Busy
                         else if Lists(s.groups[id], email) then InvalidArg else Ok)
            && (reply != Ok ==> t == s)
            && (reply == Ok ==>
                  && OnlyGroup(s, t, id)
                  && var g, h := s.groups[id], t.groups[id];
                     && h.count == g.count + 1 && h.slots[..g.count] == g.slots[..g.count]
                     && Holds(h.slots[g.count], email, 96)
                     && h.(slots := g.slots, count := g.count) == g)
  {
    if Known(s, id) {
      var found := Find(s.groups[id].slots, s.groups[id].count, email);
    }
  }

  /** The first recipient that is the address up to case is taken out, and the others keep their order. */
  lemma RemoveRecipientDoes(s: State, id: int, email: Text) returns (f: nat)
    requires AllProper(s.groups)
    ensures var (t, reply) := Apply(s, RemoveRecipient(id, email));
            && reply == (if id < 0 || id >= GROUPS || email == [] then MissingArg
                         else if !s.groups[id].used then NotFound
                         else if !Lists(s.groups[id], email) then NotFound else Ok)
            && (reply != Ok ==> t == s)
            && (reply == Ok ==>
                  && OnlyGroup(s, t, id)
                  && var g, h := s.groups[id], t.groups[id];
                     && f < g.count && Same(g.slots[f], email) && (forall r :: 0 <= r < f ==> !Same(g.slots[r], email))
                     && h.count == g.count - 1
                     && h.slots[..h.count] == g.slots[..f] + g.slots[f + 1..g.count] && h.slots[h.count] == []
                     && h.(slots := g.slots, count := g.count) == g)
  {
    f := 0;
    if Known(s, id) {
      f := Find(s.groups[id].slots, s.groups[id].count, email);
    }
  }

  /** A factory reset leaves no group and nothing in the store. */
  lemma FactoryResetDoes(s: State, i: nat)
    requires AllProper(s.groups) && i < GROUPS
    ensures var (t, reply) := Apply(s, FactoryReset);
            |t.groups| == GROUPS && !t.groups[i].used && t.groups[i] == Zero() && t.store == map[] && reply == Ok
  {
  }

  // ---------------------------------------------------------------- memory and store agree

  /** Every command leaves a slot in a proper state. */
  lemma OnGroupProper(g: Group, op: Op)
    requires Proper(g)
    ensures Proper(OnGroup(g, op).group)
  {
    match op
    case Edit(_, field, text) =>
    case _ =>
  }

  ghost predicate Good(s: State) {
    AllProper(s.groups) && forall i :: 0 <= i < GROUPS ==> Loaded(s.store, i) == s.groups[i]
  }

  lemma ReplacedGood(s: State, i: nat, g: Group)
    requires Good(s) && i < GROUPS && Proper(g)
    ensures Good(Replaced(s, i, g))
  {
    SaveThenLoad(s.store, i, g);
    forall j | 0 <= j < GROUPS && j != i
      ensures Loaded(Saved(s.store, i, g), j) == s.groups[j]
    {
      LoadedElsewhere(s.store, i, g, j);
    }
  }

  lemma EmptyStoreGood()
    ensures Good(State(Zeros(), map[]))
  {
    forall i | 0 <= i < GROUPS
      ensures Loaded(map[], i) == Zero()
    {
    }
  }

  lemma StepGood(s: State, op: Op)
    requires Good(s)
    ensures Good(Apply(s, op).0)
  {
    match op
    case Add(name) =>
      var i := FirstFree(s.groups);
      if i < |s.groups| {
        ReplacedGood(s, i, NewGroup(i, name));
      }
    case FactoryReset => EmptyStoreGood();
    case Reboot =>
    case _ =>
      if Known(s, op.id) {
        OnGroupProper(s.groups[op.id], op);
        ReplacedGood(s, op.id, OnGroup(s.groups[op.id], op).group);
      }
  }

  ghost predicate Runs(s: State, ops: seq<Op>, t: State)
    decreases |ops|
  {
    if ops == [] then t == s else AllProper(s.groups) && Runs(Apply(s, ops[0]).0, ops[1..], t)
  }

  lemma {:induction false} RunGood(s: State, ops: seq<Op>, t: State)
    requires Good(s) && Runs(s, ops, t)
    ensures Good(t)
    decreases |ops|
  {
    if ops != [] {
      StepGood(s, ops[0]);
      RunGood(Apply(s, ops[0]).0, ops[1..], t);
    }
  }

  /**
   * After any sequence of commands, resets and reboots that starts from an empty store, a further reboot
   * rebuilds exactly the groups in memory, however many stale keys the store has collected.
   */
  lemma SurvivesReboot(ops: seq<Op>, t: State)
    requires Runs(State(Zeros(), map[]), ops, t)
    ensures AllProper(t.groups) && Apply(t, Reboot).0 == t
  {
    EmptyStoreGood();
    RunGood(State(Zeros(), map[]), ops, t);
    assert LoadedAll(t.store, |t.groups|) == t.groups;
  }

  // ---------------------------------------------------------------- recipients

  function Recipients(g: Group): seq<Text>
    requires g.count <= |g.slots|
  {
    g.slots[..g.count]
  }

  ghost predicate NoDuplicates(g: Group) {
    g.count <= |g.slots| && forall p, q :: 0 <= p < q < g.count ==> !Same(g.slots[p], g.slots[q])
  }

  /**
   * An address that is added keeps the list free of duplicates (up to case) exactly when it is at most 95
   * bytes long or its first 95 bytes are not on the list: the check compares the whole address, the list
   * keeps what fits.
   */
  lemma AddedWithoutDuplicates(g: Group, email: Text)
    requires Proper(g) && NoDuplicates(g) && RecipientAdded(g, email).reply.Ok?
    ensures NoDuplicates(RecipientAdded(g, email).group)
            <==> |email| < EMAIL_CAP || forall q :: 0 <= q < g.count ==> !Same(g.slots[q], email[..EMAIL_CAP - 1])
  {
    var h := RecipientAdded(g, email).group;
    assert forall q :: 0 <= q < g.count ==> h.slots[q] == g.slots[q] && !Same(g.slots[q], email);
    assert h.slots[g.count] == Fit(email, EMAIL_CAP);
    if |email| >= EMAIL_CAP {
      if q :| 0 <= q < g.count && Same(g.slots[q], email[..EMAIL_CAP - 1]) {
        assert Same(h.slots[q], h.slots[g.count]);
      }
    }
  }

  /** Removing takes out one entry and keeps the others in order. */
  lemma RemovedFromList(g: Group, email: Text)
    requires Proper(g) && RecipientRemoved(g, email).reply.Ok?
    ensures var h, f := RecipientRemoved(g, email).group, Find(g.slots, g.count, email);
            && Same(g.slots[f], email) && Recipients(h) == Recipients(g)[..f] + Recipients(g)[f + 1..]
            && (NoDuplicates(g) ==> NoDuplicates(h))
  {
    var h, f := RecipientRemoved(g, email).group, Find(g.slots, g.count, email);
    assert Recipients(h) == Recipients(g)[..f] + Recipients(g)[f + 1..];
  }

  /** Removing an address that was just added puts the group back as it was. */
  lemma RemoveUndoesAdd(g: Group, email: Text)
    requires Proper(g) && RecipientAdded(g, email).reply.Ok? && |email| < EMAIL_CAP
    ensures RecipientRemoved(RecipientAdded(g, email).group, email) == Change(Ok, g)
  {
    var h := RecipientAdded(g, email).group;
    var f := Find(h.slots, h.count, email);
    assert Same(h.slots[g.count], email);
    assert forall q :: 0 <= q < g.count ==> h.slots[q] == g.slots[q];
    assert f == g.count;
    assert Shifted(h.slots, h.count, f) == g.slots;
  }
}
