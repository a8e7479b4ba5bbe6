/**
 * TXT record data (section 6 of RFC 6763): the encoder of `mdns_send.c`, the two-pass decoder
 * of `mdns_receive.c`, and the round trip between them.
 */
module TxtRecord {
  import opened Basics
  import opened DnsNames
  import opened NameWriter

  const EQUALS: byte := 61
  const MAX_PACKET_SIZE := 1460

  /** A key and its value; a missing value is a NULL pointer. */
  datatype Item = Item(key: seq<byte>, value: Option<seq<byte>>)

  // ---------------------------------------------------------------- encoding

  function Body(t: Item): seq<byte> {
    t.key + if t.value.Some? then [EQUALS] + t.value.value else []
  }

  /** The length is stored in one byte, whatever it is. */
  function Entry(t: Item): seq<byte> {
    [|Body(t)| % 256] + Body(t)
  }

  function Entries(ts: seq<Item>): seq<byte> {
    if ts == [] then [] else Entry(ts[0]) + Entries(ts[1..])
  }

  /** No items at all are a single empty string. */
  function TxtData(ts: seq<Item>): seq<byte> {
    if ts == [] then [0] else Entries(ts)
  }

  // ---------------------------------------------------------------- decoding

  /** The strings up to the first empty one or the end; none if a string reaches past the end. */
  function Strings(data: seq<byte>): Option<seq<seq<byte>>>
    decreases |data|
  {
    if data == [] || data[0] == 0 then Some([])
    else if 1 + data[0] > |data| then None
    else
      var rest := Strings(data[1 + data[0]..]);
      if rest.None? then None else Some([data[1..1 + data[0]]] + rest.value)
  }

  /** Where the first `=` is, or the length. */
  function KeyLen(s: seq<byte>): (k: nat)
    ensures k <= |s|
  {
    if s == [] || s[0] == EQUALS then 0 else 1 + KeyLen(s[1..])
  }

  function ItemOf(s: seq<byte>): Item {
    var k := KeyLen(s);
    Item(s[..k], if k + 1 < |s| then Some(s[k + 1..]) else None)
  }

  /** Strings that begin with `=` have no key and are left out. */
  function ItemsOf(strings: seq<seq<byte>>): (r: seq<Item>)
    ensures |r| <= |strings|
  {
    if strings == [] then []
    else (if strings[0] != [] && strings[0][0] != EQUALS then [ItemOf(strings[0])] else []) + ItemsOf(strings[1..])
  }

  /** What a receiver makes of record data; malformed data gives nothing. */
  function Received(data: seq<byte>): seq<Item> {
    var strings := Strings(data);
    if strings.None? then [] else ItemsOf(strings.value)
  }

  // ---------------------------------------------------------------- the round trip

  /** A key that can be told from its value. */
  predicate Clean(t: Item) {
    t.key != [] && EQUALS !in t.key
  }

  /** An empty value arrives as no value. */
  function Normal(t: Item): Item {
    if t.value == Some([]) then t.(value := None) else t
  }

  function Normals(ts: seq<Item>): (r: seq<Item>)
    ensures |r| == |ts| && forall i :: 0 <= i < |r| ==> r[i] == Normal(ts[i])
  {
    if ts == [] then [] else [Normal(ts[0])] + Normals(ts[1..])
  }

  predicate Short(ts: seq<Item>) {
    forall t <- ts :: |Body(t)| <= 255
  }

  lemma {:induction false} KeyLenOf(key: seq<byte>, rest: seq<byte>)
    requires EQUALS !in key && (rest != [] ==> rest[0] == EQUALS)
    ensures KeyLen(key + rest) == |key|
  {
    if key == [] {
      assert key + rest == rest;
    } else {
      assert (key + rest)[1..] == key[1..] + rest;
      KeyLenOf(key[1..], rest);
    }
  }

  lemma {:induction false} KeyLenStops(s: seq<byte>, i: nat)
    requires i < |s| && s[i] == EQUALS
    ensures KeyLen(s) <= i
  {
    if s[0] != EQUALS {
      KeyLenStops(s[1..], i - 1);
    }
  }

  lemma ItemOfBody(t: Item)
    requires Clean(t)
    ensures ItemOf(Body(t)) == Normal(t)
  {
    var rest := if t.value.Some? then [EQUALS] + t.value.value else [];
    KeyLenOf(t.key, rest);
    assert Body(t)[..|t.key|] == t.key;
    if t.value.Some? {
      assert Body(t)[|t.key| + 1..] == t.value.value;
    }
  }

  /** An unclean key never arrives: its string is left out, ends the record, or is cut short. */
  lemma UncleanKeyLost(t: Item)
    requires !Clean(t) && Body(t) != [] && Body(t)[0] != EQUALS
    ensures ItemOf(Body(t)).key != t.key
  {
    if t.key != [] {
      var i :| 0 <= i < |t.key| && t.key[i] == EQUALS;
      KeyLenStops(Body(t), i);
    }
  }

  /** Peeling one entry off. */
  lemma StringsOfEntry(t: Item, tail: seq<byte>)
    requires 1 <= |Body(t)| <= 255
    ensures Strings(Entry(t) + tail) ==
            if Strings(tail).None? then None else Some([Body(t)] + Strings(tail).value)
  {
    var data := Entry(t) + tail;
    assert data[0] == |Body(t)|;
    assert data[1..1 + |Body(t)|] == Body(t) && data[1 + |Body(t)|..] == tail;
  }

  lemma {:induction false} NeverMore(ts: seq<Item>)
    requires Short(ts)
    ensures Strings(Entries(ts)).Some? && |Strings(Entries(ts)).value| <= |ts|
  {
    if ts != [] {
      NeverMore(ts[1..]);
      if Body(ts[0]) == [] {
        assert Entries(ts)[0] == 0;
      } else {
        StringsOfEntry(ts[0], Entries(ts[1..]));
      }
    }
  }

  lemma {:induction false} EntriesRoundTrip(ts: seq<Item>)
    requires Short(ts)
    ensures Received(Entries(ts)) == Normals(ts) <==> forall t <- ts :: Clean(t)
  {
    if ts != [] {
      var t, tail := ts[0], ts[1..];
      assert ts == [t] + tail;
      EntriesRoundTrip(tail);
      NeverMore(tail);
      if Body(t) == [] {
        assert Entries(ts)[0] == 0;
        assert !Clean(t) && Received(Entries(ts)) == [];
      } else {
        StringsOfEntry(t, Entries(tail));
        var strings := Strings(Entries(tail)).value;
        assert ([Body(t)] + strings)[1..] == strings;
        if Body(t)[0] == EQUALS {
          assert !Clean(t) && Received(Entries(ts)) == ItemsOf(strings);
        } else {
          assert Received(Entries(ts)) == [ItemOf(Body(t))] + Received(Entries(tail));
          assert Normals(ts)[1..] == Normals(tail);
          if Clean(t) {
            ItemOfBody(t);
          } else {
            UncleanKeyLost(t);
            assert Received(Entries(ts))[0].key != Normals(ts)[0].key;
          }
        }
      }
    }
  }

  /**
   * With strings of at most 255 bytes, decoding what was encoded gives the same keys and values in the
   * same order exactly when no key is empty and none contains `=`.
   */
  lemma RoundTrip(ts: seq<Item>)
    requires Short(ts)
    ensures Received(TxtData(ts)) == Normals(ts) <==> forall t <- ts :: Clean(t)
  {
    EntriesRoundTrip(ts);
    if ts == [] {
      assert Received([0]) == [];
    }
  }

  // ---------------------------------------------------------------- the encoder in place

  lemma SpliceTwice(buf: seq<byte>, index: nat, a: seq<byte>, mid: seq<byte>, at: nat, b: seq<byte>, ab: seq<byte>)
    requires index + |a| + |b| <= |buf| && mid == Splice(buf, index, a) && at == index + |a| && ab == a + b
    ensures Splice(mid, at, b) == Splice(buf, index, ab)
  {
  }

  /** Copy `bytes` to `at`, as `memcpy` does. */
  method Copy(packet: array<byte>, at: nat, bytes: seq<byte>)
    requires at + |bytes| <= packet.Length
    modifies packet
    ensures packet[..] == Splice(old(packet[..]), at, bytes)
  {
    ghost var before := packet[..];
    for i := 0 to |bytes|
      invariant forall j :: 0 <= j < packet.Length ==>
                packet[j] == if at <= j < at + i then bytes[j - at] else before[j]
    {
      packet[at + i] := bytes[i];
    }
  }

  method CopyBody(packet: array<byte>, at: nat, txt: Item)
    requires at + |Body(txt)| <= packet.Length
    modifies packet
    ensures packet[..] == Splice(old(packet[..]), at, Body(txt))
  {
    ghost var before := packet[..];
    Copy(packet, at, txt.key);
    ghost var mid := packet[..];
    if txt.value.Some? {
      Copy(packet, at + |txt.key|, [EQUALS] + txt.value.value);
      SpliceTwice(before, at, txt.key, mid, at + |txt.key|, [EQUALS] + txt.value.value, Body(txt));
    } else {
      assert Body(txt) == txt.key;
    }
  }

  method AppendEntry(packet: array<byte>, index: nat, len: byte, txt: Item, ghost entry: seq<byte>)
    requires entry == [len] + Body(txt) && index + |entry| <= packet.Length
    modifies packet
    ensures packet[..] == Splice(old(packet[..]), index, entry)
  {
    ghost var before := packet[..];
    var w := AppendU8(packet, index, len);
    ghost var mid := packet[..];
    CopyBody(packet, index + 1, txt);
    SpliceTwice(before, index, [len], mid, index + 1, Body(txt), entry);
  }

  /** `mdns_priv_append_one_txt_record_entry`; a missing item, or one without a key, is None. */
  method AppendOneTxtRecordEntry(packet: array<byte>, index: nat, item: Option<Item>) returns (length: int)
    requires item.Some? && index + |Entry(item.value)| < MAX_PACKET_SIZE ==>
             index + |Entry(item.value)| <= packet.Length
    modifies packet
    ensures length == if item.None? then -1 else if index + |Entry(item.value)| >= MAX_PACKET_SIZE then 0
            else |Entry(item.value)|
    ensures packet[..] == if length <= 0 then old(packet[..]) else Splice(old(packet[..]), index, Entry(item.value))
  {
    if item.None? {
      return -1;
    }
    var txt := item.value;
    var len := |txt.key| + if txt.value.Some? then |txt.value.value| + 1 else 0;
    if index + len + 1 >= MAX_PACKET_SIZE {
      return 0;
    }
    AppendEntry(packet, index, len % 256, txt, Entry(txt));
    length := len + 1;
  }

  lemma {:induction false} EntriesAppend(ts: seq<Item>, us: seq<Item>)
    ensures Entries(ts + us) == Entries(ts) + Entries(us)
  {
    if ts == [] {
      assert ts + us == us;
    } else {
      assert (ts + us)[1..] == ts[1..] + us;
      EntriesAppend(ts[1..], us);
      var h, a, b := Entry(ts[0]), Entries(ts[1..]), Entries(us);
      assert h + (a + b) == h + a + b;
    }
  }

  lemma EntriesSnoc(ts: seq<Item>, i: nat)
    requires i < |ts|
    ensures Entries(ts[..i + 1]) == Entries(ts[..i]) + Entry(ts[i])
    ensures |Entries(ts[..i + 1])| <= |Entries(ts)|
  {
    assert ts[..i + 1] == ts[..i] + [ts[i]];
    EntriesAppend(ts[..i], [ts[i]]);
    assert [ts[i]][1..] == [];
    assert ts == ts[..i + 1] + ts[i + 1..];
    EntriesAppend(ts[..i + 1], ts[i + 1..]);
  }

  /** The data part of `append_txt_record`: it fails exactly when the entries do not fit. */
  method AppendTxtData(packet: array<byte>, index: nat, txt: seq<Item>) returns (ok: bool, length: nat)
    requires packet.Length == MAX_PACKET_SIZE && index < packet.Length
    modifies packet
    ensures ok <==> index + |Entries(txt)| < packet.Length
    ensures ok ==> length == |TxtData(txt)| && packet[..] == Splice(old(packet[..]), index, TxtData(txt))
  {
    ghost var before := packet[..];
    length := 0;
    var i := 0;
    while i < |txt|
      invariant i <= |txt| && length == |Entries(txt[..i])| && index + length < packet.Length
      invariant packet[..] == Splice(before, index, Entries(txt[..i]))
    {
      EntriesSnoc(txt, i);
      ghost var mid := packet[..];
      var l := AppendOneTxtRecordEntry(packet, index + length, Some(txt[i]));
      if l == 0 {
        return false, length;
      }
      SpliceTwice(before, index, Entries(txt[..i]), mid, index + length, Entry(txt[i]), Entries(txt[..i + 1]));
      length := length + l;
      i := i + 1;
    }
    assert txt[..|txt|] == txt;
    if length == 0 {
      assert txt == [];
      length := 1;
      packet[index] := 0;
      assert packet[..] == Splice(before, index, [0]);
    }
    ok := true;
  }

  // ---------------------------------------------------------------- the decoder's two passes

  /** `get_txt_items_count`. */
  method GetTxtItemsCount(data: seq<byte>) returns (count: int)
    requires |data| < 0x1_0000
    ensures |data| == 1 ==> count == 0
    ensures |data| != 1 ==> count == if Strings(data).None? then -1 else |Strings(data).value|
  {
    if |data| == 1 {
      return 0;
    }
    count := 0;
    var i := 0;
    while i < |data|
      invariant 0 <= i <= |data| && count >= 0
      invariant Strings(data[i..]).None? <==> Strings(data).None?
      invariant Strings(data).Some? ==> |Strings(data).value| == count + |Strings(data[i..]).value|
    {
      var partLen := data[i];
      i := i + 1;
      if partLen == 0 {
        break;
      }
      if i + partLen > |data| {
        return -1;
      }
      assert data[i - 1..][1 + partLen..] == data[i + partLen..];
      i := i + partLen;
      count := count + 1;
    }
  }

  /** `get_txt_item_len`, on a string that is not empty. */
  method GetTxtItemLen(data: seq<byte>, at: nat, len: nat) returns (keyLen: int)
    requires 0 < len && at + len <= |data|
    ensures keyLen == if data[at] == EQUALS then -1 else KeyLen(data[at..at + len])
  {
    if data[at] == EQUALS {
      return -1;
    }
    var i := 0;
    while i < len
      invariant i <= len && KeyLen(data[at..at + len]) == i + KeyLen(data[at + i..at + len])
    {
      if data[at + i] == EQUALS {
        return i;
      }
      assert data[at + i..at + len][1..] == data[at + i + 1..at + len];
      i := i + 1;
    }
    return len;
  }

  lemma {:induction false} ItemsOfAppend(a: seq<seq<byte>>, b: seq<seq<byte>>)
    ensures ItemsOf(a + b) == ItemsOf(a) + ItemsOf(b)
  {
    if a == [] {
      assert a + b == b;
    } else {
      assert (a + b)[1..] == a[1..] + b;
      ItemsOfAppend(a[1..], b);
      var h, x, y := if a[0] != [] && a[0][0] != EQUALS then [ItemOf(a[0])] else [], ItemsOf(a[1..]), ItemsOf(b);
      assert h + (x + y) == h + x + y;
    }
  }

  lemma ItemsOfSnoc(strings: seq<seq<byte>>, k: nat, s: seq<byte>)
    requires k < |strings| && s == strings[k]
    ensures ItemsOf(strings[..k + 1]) == ItemsOf(strings[..k]) + if s != [] && s[0] != EQUALS then [ItemOf(s)] else []
  {
    assert strings[..k + 1] == strings[..k] + [s];
    ItemsOfAppend(strings[..k], [s]);
    assert [s][1..] == [];
  }

  /** One string of the second pass: its item, if it has a key, and where the next string begins. */
  method ReadItem(data: seq<byte>, at: nat, partLen: nat) returns (item: Option<Item>, next: nat)
    requires 0 < partLen && at + partLen <= |data|
    ensures next == at + partLen
    ensures var s := data[at..at + partLen]; item == if s[0] == EQUALS then None else Some(ItemOf(s))
  {
    ghost var s := data[at..at + partLen];
    var nameLen := GetTxtItemLen(data, at, partLen);
    if nameLen < 0 {
      return None, at + partLen;
    }
    var key := data[at..at + nameLen];
    assert key == s[..nameLen];
    next := at + nameLen + if nameLen < partLen then 1 else 0;
    var newValueLen := partLen - nameLen - 1;
    if newValueLen > 0 {
      assert data[next..next + newValueLen] == s[nameLen + 1..];
      item := Some(Item(key, Some(data[next..next + newValueLen])));
      next := next + newValueLen;
    } else {
      item := Some(Item(key, None));
    }
  }

  /** The second pass meets the strings the first pass counted. */
  lemma PassStep(data: seq<byte>, i: nat, strings: seq<seq<byte>>, k: nat) returns (s: seq<byte>)
    requires i < |data| && data[i] != 0 && k <= |strings| && Strings(data[i..]) == Some(strings[k..])
    ensures i + 1 + data[i] <= |data| && s == data[i + 1..i + 1 + data[i]] && k < |strings|
    ensures Strings(data[i + 1 + data[i]..]) == Some(strings[k + 1..])
    ensures ItemsOf(strings[..k + 1]) == ItemsOf(strings[..k]) + if s[0] != EQUALS then [ItemOf(s)] else []
  {
    s := data[i + 1..i + 1 + data[i]];
    assert data[i..][1..1 + data[i]] == s;
    assert data[i..][1 + data[i]..] == data[i + 1 + data[i]..];
    assert strings[k..][0] == s && strings[k..][1..] == strings[k + 1..];
    ItemsOfSnoc(strings, k, s);
  }

  /**
   * `result_txt_create`. The array allocated for the strings that the first pass counted is never too
   * small, and the bound on its use never cuts the second pass short.
   */
  method ResultTxtCreate(data: seq<byte>) returns (items: seq<Item>)
    requires |data| < 0x1_0000
    ensures items == Received(data)
  {
    var count := GetTxtItemsCount(data);
    if count <= 0 {
      assert |data| == 1 && data[0] != 0 ==> Strings(data).None?;
      return [];
    }
    items := SecondPass(data, count);
  }

  method NextItem(data: seq<byte>, i: nat, ghost strings: seq<seq<byte>>, ghost k: nat, ghost done: seq<Item>)
    returns (item: Option<Item>, next: nat, ghost done': seq<Item>)
    requires i < |data| && data[i] != 0 && k <= |strings| && Strings(data[i..]) == Some(strings[k..])
             && done == ItemsOf(strings[..k])
    ensures k < |strings| && i < next <= |data| && Strings(data[next..]) == Some(strings[k + 1..])
    ensures done' == ItemsOf(strings[..k + 1]) && done' == if item.Some? then done + [item.value] else done
  {
    ghost var s := PassStep(data, i, strings, k);
    item, next := ReadItem(data, i + 1, data[i]);
    done' := ItemsOf(strings[..k + 1]);
  }

  method SecondPass(data: seq<byte>, count: nat) returns (items: seq<Item>)
    requires Strings(data).Some? && count == |Strings(data).value|
    ensures items == Received(data)
  {
    ghost var strings := Strings(data).value;
    var txt := new Item[count](_ => Item([], None));
    var num, i := 0, 0;
    ghost var k, done := 0, ItemsOf([]);
    while i < |data| && num < count
      invariant 0 <= i <= |data| && num == |done| <= k <= |strings| == count
      invariant Strings(data[i..]) == Some(strings[k..])
      invariant done == ItemsOf(strings[..k]) && forall j :: 0 <= j < num ==> txt[j] == done[j]
      decreases |data| - i
    {
      var partLen := data[i];
      if partLen == 0 {
        break;
      }
      var item: Option<Item>;
      item, i, done := NextItem(data, i, strings, k, done);
      k := k + 1;
      if item.Some? {
        txt[num] := item.value;
        num := num + 1;
      }
    }
    assert strings[..k] == strings;
    items := txt[..num];
    assert items == done;
  }
}
