/** The mail groups as they are kept: an array of slots changed in place, and saved after every change. */
module MailGroups {
  import opened Basics
  import opened DnsNames
  import opened Renaming
  import opened MailStore

  class Groups {
    const groups: array<Group>
    var store: Store

    ghost function View(): State
      reads this, groups
    {
      State(groups[..], store)
    }

    ghost predicate Valid()
      reads this, groups
    {
      groups.Length == GROUPS && Good(View())
    }

    /** `ls_mail_groups_init` on a device whose store holds nothing yet. */
    constructor ()
      ensures Valid() && View() == State(Zeros(), map[]) && fresh(groups)
    {
      groups := new Group[GROUPS](_ => Zero());
      store := map[];
      new;
      assert groups[..] == Zeros();
      EmptyStoreGood();
    }

    /** `save_group`. */
    method SaveGroup(i: nat)
      requires i < groups.Length && groups[i].count <= |groups[i].slots|
      modifies this
      ensures store == Saved(old(store), i, groups[i])
    {
      var g := groups[i];
      store := store[KeyFor(i, USED) := U8(if g.used then 1 else 0)];
      if g.used {
        store := store[KeyFor(i, ENABLED) := U8(if g.enabled then 1 else 0)];
        store := store[KeyFor(i, NAME) := Str(g.name)];
        store := store[KeyFor(i, SUBJECT) := Str(g.subject)];
        store := store[KeyFor(i, BODY) := Str(g.body)];
        store := store[KeyFor(i, COUNT) := U8(g.count)];
        SaveRecipients(i, g.slots, g.count);
      }
    }

    method SaveRecipients(i: nat, slots: seq<Text>, count: nat)
      requires count <= |slots|
      modifies this
      ensures store == PutSlots(old(store), i, slots, 0, count)
    {
      var r := 0;
      while r < count
        invariant r <= count && PutSlots(store, i, slots, r, count) == PutSlots(old(store), i, slots, 0, count)
      {
        store := store[KeyFor(i, SlotSuffix(r)) := Str(slots[r])];
        r := r + 1;
      }
    }

    /** `load_group`, field by field into a zeroed slot. */
    method LoadGroup(i: nat)
      requires i < groups.Length && groups[i] == Zero()
      modifies groups
      ensures groups[..] == old(groups[..])[i := Loaded(store, i)]
    {
      var used := GetU8(store, KeyFor(i, USED));
      if used.None? || used.value == 0 {
        assert groups[..] == old(groups[..])[i := Zero()];
        return;
      }
      var enabled, count := GetU8(store, KeyFor(i, ENABLED)), GetU8(store, KeyFor(i, COUNT));
      var n := if count.Some? then count.value else 0;
      var slots := LoadRecipients(i, n);
      groups[i] := Group(true, if enabled.Some? then enabled.value != 0 else true,
                         GetStr(store, KeyFor(i, NAME), NAME_CAP, []),
                         GetStr(store, KeyFor(i, SUBJECT), SUBJECT_CAP, []),
                         GetStr(store, KeyFor(i, BODY), BODY_CAP, []), slots, n);
      assert groups[..] == old(groups[..])[i := Loaded(store, i)];
    }

    method LoadRecipients(i: nat, count: nat) returns (slots: seq<Text>)
      ensures slots == LoadedSlots(store, i, NoRecipients(), 0, count)
    {
      slots := NoRecipients();
      var r := 0;
      while r < count && r < RECIPIENTS
        invariant r <= RECIPIENTS && |slots| == RECIPIENTS
        invariant LoadedSlots(store, i, slots, r, count) == LoadedSlots(store, i, NoRecipients(), 0, count)
        decreases RECIPIENTS - r
      {
        slots := slots[r := GetStr(store, KeyFor(i, SlotSuffix(r)), EMAIL_CAP, slots[r])];
        r := r + 1;
      }
    }

    /** `load_all`, as after a reboot: memory is forgotten and filled from the store alone. */
    method LoadAll()
      requires groups.Length == GROUPS
      modifies groups
      ensures groups[..] == LoadedAll(store, groups.Length)
    {
      for i := 0 to groups.Length
        invariant forall j :: 0 <= j < i ==> groups[j] == Zero()
      {
        groups[i] := Zero();
      }
      for i := 0 to groups.Length
        invariant forall j :: 0 <= j < i ==> groups[j] == Loaded(store, j)
        invariant forall j :: i <= j < groups.Length ==> groups[j] == Zero()
      {
        ghost var before := groups[..];
        LoadGroup(i);
        assert forall j :: 0 <= j < groups.Length ==> groups[j] == before[i := Loaded(store, i)][j];
      }
      assert groups[..] == LoadedAll(store, groups.Length);
    }

    method Reboot()
      requires Valid()
      modifies groups
      ensures Valid() && groups[..] == old(groups[..])
    {
      LoadAll();
      assert forall i :: 0 <= i < GROUPS ==> groups[..][i] == old(groups[..])[i];
      assert groups[..] == old(groups[..]);
    }

    /** Write a slot and save it. */
    method Commit(i: nat, g: Group)
      requires Valid() && i < GROUPS && Proper(g)
      modifies this, groups
      ensures Valid() && View() == Replaced(old(View()), i, g)
    {
      ReplacedGood(View(), i, g);
      groups[i] := g;
      assert groups[..] == old(groups[..])[i := g];
      SaveGroup(i);
    }

    /** `ls_mail_groups_add`. */
    method Add(name: Option<Text>) returns (id: int)
      requires Valid()
      modifies this, groups
      ensures Valid() && (View(), if id < 0 then Busy else Reply.Ok) == Apply(old(View()), Op.Add(name))
      ensures id == if FirstFree(old(groups[..])) == GROUPS then -1 else FirstFree(old(groups[..]))
    {
      var i := 0;
      while i < groups.Length && groups[i].used
        invariant i <= groups.Length && FirstFree(groups[..]) == i + FirstFree(groups[i..])
        invariant View() == old(View()) && Valid()
      {
        assert groups[i..][1..] == groups[i + 1..];
        i := i + 1;
      }
      if i == groups.Length {
        return -1;
      }
      Commit(i, NewGroup(i, name));
      id := i;
    }

    /** `cli_delete`. */
    method Delete(id: int) returns (reply: Reply)
      requires Valid()
      modifies this, groups
      ensures Valid() && (View(), reply) == Apply(old(View()), Op.Delete(id))
    {
      if id < 0 || id >= GROUPS {
        return MissingArg;
      }
      if !groups[id].used {
        return NotFound;
      }
      Commit(id, Zero());
      reply := Reply.Ok;
    }

    /** `cli_enable`, with the state already parsed. */
    method Enable(id: int, on: bool) returns (reply: Reply)
      requires Valid()
      modifies this, groups
      ensures Valid() && (View(), reply) == Apply(old(View()), Op.Enable(id, on))
    {
      if id < 0 || id >= GROUPS {
        return MissingArg;
      }
      if !groups[id].used {
        return NotFound;
      }
      Commit(id, groups[id].(enabled := on));
      reply := Reply.Ok;
    }

    /** `cli_name`, `cli_subject` and `cli_body`, with the text already joined. */
    method Edit(id: int, field: Field, text: Text) returns (reply: Reply)
      requires Valid()
      modifies this, groups
      ensures Valid() && (View(), reply) == Apply(old(View()), Op.Edit(id, field, text))
    {
      if id < 0 || id >= GROUPS {
        return MissingArg;
      }
      if !groups[id].used {
        return NotFound;
      }
      if text == [] {
        return MissingArg;
      }
      OnGroupProper(groups[id], Op.Edit(id, field, text));
      Commit(id, Edited(groups[id], field, text));
      reply := Reply.Ok;
    }

    method FindRecipient(id: nat, email: Text) returns (r: nat)
      requires Valid() && id < GROUPS
      ensures r == Find(groups[id].slots, groups[id].count, email)
    {
      var g := groups[id];
      r := 0;
      while r < g.count && !Same(g.slots[r], email)
        invariant r <= g.count <= |g.slots|
        invariant Find(g.slots, g.count, email) == r + Find(g.slots[r..], g.count - r, email)
      {
        assert g.slots[r..][1..] == g.slots[r + 1..];
        r := r + 1;
      }
    }

    /** `cli_rcpt_add`. */
    method RcptAdd(id: int, email: Text) returns (reply: Reply)
      requires Valid()
      modifies this, groups
      ensures Valid() && (View(), reply) == Apply(old(View()), AddRecipient(id, email))
    {
      if id < 0 || id >= GROUPS || email == [] {
        return MissingArg;
      }
      if !groups[id].used {
        return NotFound;
      }
      if AT !in email {
        return InvalidArg;
      }
      if groups[id].count >= RECIPIENTS {
        return Busy;
      }
      var found := FindRecipient(id, email);
      if found < groups[id].count {
        return InvalidArg;
      }
      var g := groups[id];
      OnGroupProper(g, AddRecipient(id, email));
      Commit(id, g.(slots := g.slots[g.count := Fit(email, EMAIL_CAP)], count := g.count + 1));
      reply := Reply.Ok;
    }

    /** The loop of `cli_rcpt_remove` that moves the later recipients down, and the `memset` behind it. */
    method ShiftTail(id: nat, found: nat)
      requires id < groups.Length && found < groups[id].count <= |groups[id].slots|
      modifies groups
      ensures var slots := Shifted(old(groups[id].slots), old(groups[id].count), found);
              groups[..] == old(groups[..])[id := old(groups[id]).(slots := slots)]
    {
      ghost var before, g := groups[..], groups[id];
      var count := groups[id].count;
      var r := found;
      ghost var now := g.slots;
      while r < count - 1
        invariant found <= r <= count - 1 && |now| == |g.slots|
        invariant forall j :: 0 <= j < groups.Length ==> groups[j] == if j == id then g.(slots := now) else before[j]
        invariant forall q :: found <= q < r ==> now[q] == g.slots[q + 1]
        invariant forall q :: 0 <= q < found || r <= q < |now| ==> now[q] == g.slots[q]
      {
        groups[id] := groups[id].(slots := groups[id].slots[r := groups[id].slots[r + 1]]);
        now := now[r := now[r + 1]];
        r := r + 1;
      }
      groups[id] := groups[id].(slots := groups[id].slots[count - 1 := []]);
      assert now[count - 1 := []] == Shifted(g.slots, count, found);
      assert forall j :: 0 <= j < groups.Length ==>
          groups[j] == before[id := g.(slots := Shifted(g.slots, count, found))][j];
    }

    /** `cli_rcpt_remove`. */
    method RcptRemove(id: int, email: Text) returns (reply: Reply)
      requires Valid()
      modifies this, groups
      ensures Valid() && (View(), reply) == Apply(old(View()), RemoveRecipient(id, email))
    {
      if id < 0 || id >= GROUPS || email == [] {
        return MissingArg;
      }
      if !groups[id].used {
        return NotFound;
      }
      var found := FindRecipient(id, email);
      if found == groups[id].count {
        return NotFound;
      }
      RemoveAt(id, found, email);
      reply := Reply.Ok;
    }

    method RemoveAt(id: nat, found: nat, email: Text)
      requires Valid() && id < GROUPS && groups[id].used && email != []
      requires found == Find(groups[id].slots, groups[id].count, email) < groups[id].count
      modifies this, groups
      ensures Valid() && View() == Replaced(old(View()), id, RecipientRemoved(old(groups[id]), email).group)
    {
      ghost var g := RecipientRemoved(groups[id], email).group;
      OnGroupProper(groups[id], RemoveRecipient(id, email));
      ReplacedGood(View(), id, g);
      ShiftTail(id, found);
      groups[id] := groups[id].(count := groups[id].count - 1);
      assert groups[..] == old(groups[..])[id := g];
      SaveGroup(id);
    }

    /** `on_factory_reset`. */
    method OnFactoryReset()
      requires Valid()
      modifies this, groups
      ensures Valid() && (View(), Reply.Ok) == Apply(old(View()), FactoryReset)
    {
      for i := 0 to groups.Length
        invariant forall j :: 0 <= j < i ==> groups[j] == Zero()
      {
        groups[i] := Zero();
      }
      store := map[];
      EmptyStoreGood();
      assert groups[..] == Zeros();
    }
  }
}
