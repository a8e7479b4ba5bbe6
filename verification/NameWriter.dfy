/**
 * `append_fqdn`: a name is written label by label until the rest of it is found somewhere
 * in the packet already, and then a pointer to that place ends it.
 */
module NameWriter {
  import opened Basics
  import opened DnsNames
  import opened NameReader

  /** Overwrite the buffer from `index` on. */
  function Splice(buf: seq<byte>, index: nat, bytes: seq<byte>): (r: seq<byte>)
    requires index + |bytes| <= |buf|
    ensures |r| == |buf|
    ensures forall i :: 0 <= i < |r| ==> r[i] == if index <= i < index + |bytes| then bytes[i - index] else buf[i]
  {
    seq(|buf|, i requires 0 <= i < |buf| => if index <= i < index + |bytes| then bytes[i - index] else buf[i])
  }

  function WireLabel(l: Label): seq<byte>
    requires LabelOk(l)
  {
    [|l| as byte] + l
  }

  /** The length byte of `l` followed by its bytes stands at `at`. */
  predicate Occurs(buf: seq<byte>, at: nat, l: Label) {
    at + 1 + |l| <= |buf| && buf[at] == |l| && buf[at + 1..at + 1 + |l|] == l
  }

  predicate NameMatches(n: Name, ss: seq<Label>)
    requires NameOk(n)
  {
    n.parts == |ss| && forall i :: 0 <= i < |ss| ==> Same(ss[i], n.fields[i])
  }

  /** The candidate test: the first label byte for byte, then the whole rest through the decoder. */
  predicate Accepts(buf: seq<byte>, at: nat, ss: seq<Label>)
    requires ss != []
  {
    && Occurs(buf, at, ss[0])
    && var r := ReadName(buf, at, at, EMPTY_NAME);
       r.Done? && NameMatches(r.name, ss)
  }

  /** The first acceptable place from `from` on, below `index`. */
  function Find(buf: seq<byte>, from: nat, index: nat, ss: seq<Label>): (r: Option<nat>)
    requires ss != []
    ensures r.Some? ==> from <= r.value < index
    decreases if from < index then index - from else 0
  {
    if from >= index then None
    else if Accepts(buf, from, ss) then Some(from)
    else Find(buf, from + 1, index, ss)
  }

  /** The buffer after the call, how many bytes were appended, and where labels were written. */
  datatype Appended = Appended(buf: seq<byte>, written: nat, starts: set<nat>)

  function Append(buf: seq<byte>, index: nat, ss: seq<Label>): (r: Appended)
    requires index <= |buf| <= 0x4000 && LabelsOk(ss)
    ensures |r.buf| == |buf| && index + r.written <= |buf|
    decreases |ss|
  {
    if ss == [] then
      if index >= |buf| then Appended(buf, 0, {})
      else Appended(Splice(buf, index, [0]), 1, {})
    else
      var found := Find(buf, 0, index, ss);
      if found.Some? then
        if index + 1 >= |buf| then Appended(buf, 0, {})
        else Appended(Splice(buf, index, PointerTo(found.value)), 2, {})
      else if index + |ss[0]| + 1 >= |buf| then Appended(buf, 0, {})
      else
        var wire := WireLabel(ss[0]);
        var rest := Append(Splice(buf, index, wire), index + |wire|, ss[1..]);
        Appended(rest.buf, |wire| + rest.written, {index} + rest.starts)
  }

  /** `offset | 0xC000`, most significant byte first. */
  function PointerTo(at: nat): (r: seq<byte>)
    requires at < 0x4000
    ensures |r| == 2 && r[0] >= 192 && Pointer(r[0], r[1]) == at
  {
    [192 + at / 256, at % 256]
  }

  /** The search returns an acceptable place, and none before it (or at all) is acceptable. */
  lemma {:induction false} FindFirst(buf: seq<byte>, from: nat, index: nat, ss: seq<Label>, at: nat)
    requires ss != []
    ensures var r := Find(buf, from, index, ss);
            && (r.Some? ==> Accepts(buf, r.value, ss))
            && (from <= at < (if r.Some? then r.value else index) ==> !Accepts(buf, at, ss))
    decreases if from < index then index - from else 0
  {
    if from < index && !Accepts(buf, from, ss) {
      FindFirst(buf, from + 1, index, ss, at);
    }
  }

  /** Only the appended bytes change. */
  lemma {:induction false} AppendFrame(buf: seq<byte>, index: nat, ss: seq<Label>, i: nat)
    requires index <= |buf| <= 0x4000 && LabelsOk(ss) && i < |buf|
    ensures var r := Append(buf, index, ss); i < index || i >= index + r.written ==> r.buf[i] == buf[i]
    decreases |ss|
  {
    if ss != [] && Find(buf, 0, index, ss).None? && index + |ss[0]| + 1 < |buf| {
      var wire := WireLabel(ss[0]);
      AppendFrame(Splice(buf, index, wire), index + |wire|, ss[1..], i);
    }
  }

  // ---------------------------------------------------------------- on memory

  method AppendU8(packet: array<byte>, index: nat, value: byte) returns (written: nat)
    modifies packet
    ensures written == if index < packet.Length then 1 else 0
    ensures packet[..] == if written == 1 then Splice(old(packet[..]), index, [value]) else old(packet[..])
  {
    if index >= packet.Length {
      return 0;
    }
    packet[index] := value;
    return 1;
  }

  method AppendU16(packet: array<byte>, index: nat, value: nat) returns (written: nat)
    requires value < 0x1_0000
    modifies packet
    ensures written == if index + 1 < packet.Length then 2 else 0
    ensures packet[..] == if written == 2 then Splice(old(packet[..]), index, [value / 256, value % 256])
            else old(packet[..])
  {
    if index + 1 >= packet.Length {
      return 0;
    }
    var hi := AppendU8(packet, index, value / 256);
    var lo := AppendU8(packet, index + 1, value % 256);
    assert packet[..] == Splice(old(packet[..]), index, [value / 256, value % 256]);
    return 2;
  }

  method AppendString(packet: array<byte>, index: nat, s: Label) returns (written: nat)
    requires LabelOk(s) && index <= packet.Length
    modifies packet
    ensures written == if index + |s| + 1 < packet.Length then |s| + 1 else 0
    ensures packet[..] == if written > 0 then Splice(old(packet[..]), index, WireLabel(s)) else old(packet[..])
  {
    if index + |s| + 1 >= packet.Length {
      return 0;
    }
    var w := AppendU8(packet, index, |s|);
    var i := 0;
    while i < |s|
      invariant 0 <= i <= |s| && packet[index] == |s|
      invariant forall j :: 0 <= j < i ==> packet[index + 1 + j] == s[j]
      invariant forall j :: 0 <= j < packet.Length && !(index <= j < index + 1 + i) ==> packet[j] == old(packet[j])
    {
      packet[index + 1 + i] := s[i];
      i := i + 1;
    }
    ghost var before, wire := old(packet[..]), WireLabel(s);
    assert forall j :: 0 <= j < packet.Length ==>
             packet[..][j] == if index <= j < index + |wire| then wire[j - index] else before[j];
    return |s| + 1;
  }

  /** `memchr` over packet[from..to]. */
  method MemChr(packet: array<byte>, from: nat, to: nat, c: byte) returns (at: nat)
    requires from <= to <= packet.Length
    ensures from <= at <= to && (at < to ==> packet[at] == c)
    ensures forall i :: from <= i < at ==> packet[i] != c
  {
    at := from;
    while at < to && packet[at] != c
      invariant from <= at <= to
      invariant forall i :: from <= i < at ==> packet[i] != c
    {
      at := at + 1;
    }
  }

  /** The tests made on one candidate, in the order of the code. */
  method TestCandidate(packet: array<byte>, at: nat, strings: seq<Label>, buf: array<byte>) returns (ok: bool)
    requires strings != [] && LabelsOk(strings)
    requires at < packet.Length && packet[at] == |strings[0]|
    requires buf.Length >= NAME_BUF_LEN && buf != packet
    modifies buf
    ensures ok <==> Accepts(packet[..], at, strings)
  {
    var len := |strings[0]|;
    if at + 1 + len > packet.Length || packet[at + 1..at + 1 + len] != strings[0] {
      return false;
    }
    assert packet[..packet.Length] == packet[..];
    var name := new NameBuf();
    var next := ReadFqdn(packet, at, name, buf, packet.Length);
    ok := next.Some? && name.parts == |strings|
          && forall i :: 0 <= i < |strings| ==> Same(strings[i], name.fields[i]);
  }

  method FindCandidate(packet: array<byte>, index: nat, strings: seq<Label>, buf: array<byte>)
    returns (found: Option<nat>)
    requires index <= packet.Length && strings != [] && LabelsOk(strings)
    requires buf.Length >= NAME_BUF_LEN && buf != packet
    modifies buf
    ensures found == Find(packet[..], 0, index, strings)
  {
    var len: byte := |strings[0]|;
    var at := MemChr(packet, 0, index, len);
    FindSkips(packet[..], 0, at, index, strings);
    while at < index
      invariant 0 <= at <= index && (at < index ==> packet[at] == len)
      invariant Find(packet[..], 0, index, strings) == Find(packet[..], at, index, strings)
    {
      var ok := TestCandidate(packet, at, strings, buf);
      if ok {
        return Some(at);
      }
      var next := MemChr(packet, at + 1, index, len);
      FindSkips(packet[..], at, next, index, strings);
      at := next;
    }
    found := None;
  }

  lemma {:induction false} FindSkips(buf: seq<byte>, from: nat, to: nat, index: nat, ss: seq<Label>)
    requires ss != [] && from <= to <= index <= |buf|
    requires forall at :: from <= at < to ==> !Accepts(buf, at, ss)
    ensures Find(buf, from, index, ss) == Find(buf, to, index, ss)
    decreases (to as int) - (from as int)
  {
    if from < to {
      FindSkips(buf, from + 1, to, index, ss);
    }
  }

  method AppendFqdn(packet: array<byte>, index: nat, strings: seq<Label>, buf: array<byte>) returns (written: nat)
    requires index <= packet.Length <= 0x4000 && LabelsOk(strings)
    requires buf.Length >= NAME_BUF_LEN && buf != packet
    modifies packet, buf
    ensures var r := Append(old(packet[..]), index, strings); packet[..] == r.buf && written == r.written
    decreases |strings|, 1
  {
    if |strings| == 0 {
      written := AppendU8(packet, index, 0);
      return;
    }
    var found := FindCandidate(packet, index, strings, buf);
    if found.None? {
      written := AppendLabelAndRest(packet, index, strings, buf);
    } else {
      written := AppendPointer(packet, index, found.value, strings);
    }
  }

  /** A label written out, and then the rest. */
  lemma AppendFirst(buf: seq<byte>, index: nat, ss: seq<Label>, mid: seq<byte>) returns (rest: Appended)
    requires index <= |buf| <= 0x4000 && LabelsOk(ss) && ss != [] && Find(buf, 0, index, ss) == None
    requires index + |ss[0]| + 1 < |buf| && mid == Splice(buf, index, WireLabel(ss[0]))
    ensures LabelsOk(ss[1..]) && rest == Append(mid, index + (|ss[0]| + 1), ss[1..])
    ensures Append(buf, index, ss).buf == rest.buf && Append(buf, index, ss).written == |ss[0]| + 1 + rest.written
  {
    rest := Append(mid, index + 1 + |ss[0]|, ss[1..]);
  }

  method AppendLabelAndRest(packet: array<byte>, index: nat, strings: seq<Label>, buf: array<byte>)
    returns (written: nat)
    requires index <= packet.Length <= 0x4000 && LabelsOk(strings) && strings != []
    requires buf.Length >= NAME_BUF_LEN && buf != packet
    requires Find(packet[..], 0, index, strings) == None
    modifies packet, buf
    ensures var r := Append(old(packet[..]), index, strings); packet[..] == r.buf && written == r.written
    decreases |strings|, 0
  {
    ghost var before := packet[..];
    written := AppendString(packet, index, strings[0]);
    if written == 0 {
      return;
    }
    ghost var r := AppendFirst(before, index, strings, packet[..]);
    var rest := AppendFqdn(packet, index + written, strings[1..], buf);
    written := written + rest;
  }

  method AppendPointer(packet: array<byte>, index: nat, at: nat, ghost strings: seq<Label>) returns (written: nat)
    requires index <= packet.Length <= 0x4000 && LabelsOk(strings) && strings != []
    requires Find(packet[..], 0, index, strings) == Some(at)
    modifies packet
    ensures var r := Append(old(packet[..]), index, strings); packet[..] == r.buf && written == r.written
  {
    PointerBytes(at);
    written := AppendU16(packet, index, at + 0xC000);
  }

  lemma PointerBytes(at: nat)
    requires at < 0x4000
    ensures [(at + 0xC000) / 256, (at + 0xC000) % 256] == PointerTo(at)
  {
  }
}
