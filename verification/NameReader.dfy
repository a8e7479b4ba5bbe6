/**
 * `mdns_utils_read_fqdn` and `mdns_utils_parse_fqdn`: the recursive decoder that fills a
 * four-field name, with its special rules for dotted hosts, `_sub` and long names.
 */
module NameReader {
  import opened Basics
  import opened DnsNames

  /** `mdns_name_t`: the fields host, service, proto and domain as C strings, and the counters. */
  datatype Name = Name(parts: nat, fields: seq<seq<byte>>, sub: bool, invalid: bool)

  const EMPTY_NAME := Name(0, [[], [], [], []], false, false)

  predicate NameOk(n: Name) {
    |n.fields| == 4 && n.parts <= 4
    && forall i :: 0 <= i < 4 ==> |n.fields[i]| < NAME_BUF_LEN && 0 !in n.fields[i]
  }

  /** `strlcat` into a field. */
  function Cat(dst: seq<byte>, src: seq<byte>): (r: seq<byte>)
    requires |dst| < NAME_BUF_LEN && 0 !in dst && 0 !in src
    ensures |r| < NAME_BUF_LEN && 0 !in r && |r| >= |dst|
    ensures src != [] && |dst| < NAME_BUF_LEN - 1 ==> |r| > |dst|
  {
    if |dst + src| < NAME_BUF_LEN then dst + src else (dst + src)[..NAME_BUF_LEN - 1]
  }

  predicate ExtendsHost(n: Name, s: seq<byte>) {
    n.parts == 1 && (s == [] || s[0] != UNDERSCORE)
    && !Same(s, LOCAL) && !Same(s, ARPA) && !Same(s, IP6) && !Same(s, IN_ADDR)
  }

  /** Reaching one more label or pointer when four parts are already there. */
  function Visit(n: Name): Name {
    if n.parts == 4 then n.(invalid := true) else n
  }

  /** One label, read into the scratch buffer as the C string `s`. */
  function AddLabel(n: Name, s: seq<byte>): (r: Name)
    requires NameOk(n) && (n.parts == 4 ==> n.invalid) && |s| <= MAX_LABEL && 0 !in s
    ensures NameOk(r)
  {
    if ExtendsHost(n, s) then n.(fields := n.fields[0 := Cat(Cat(n.fields[0], [46]), s)])
    else if Same(s, SUB) then n.(sub := true)
    else if !n.invalid then n.(fields := n.fields[n.parts := s], parts := n.parts + 1)
    else n
  }

  datatype ReadResult = Fail | Done(name: Name, next: nat)

  /** The decoder as a function of the readable bytes `p`, the start `seg` of this call, and the cursor. */
  function ReadName(p: seq<byte>, seg: nat, pos: nat, n: Name): (r: ReadResult)
    requires seg <= pos && NameOk(n)
    ensures r.Done? ==> NameOk(r.name)
    decreases seg, if pos < |p| then |p| - pos else 0
  {
    if pos >= |p| || p[pos] == 0 then Done(n, pos + 1)
    else if p[pos] < 192 then
      var next := pos + 1 + p[pos];
      if p[pos] > MAX_LABEL || next > |p| then Fail
      else ReadName(p, seg, next, AddLabel(Visit(n), CStr(p[pos + 1..next])))
    else if pos + 1 >= |p| then Fail
    else
      var target := Pointer(p[pos], p[pos + 1]);
      if target >= seg then Fail
      else
        match ReadName(p, target, target, Visit(n))
        case Fail => Fail
        case Done(n', _) => Done(n', pos + 2)
  }

  // ---------------------------------------------------------------- agreement with the plain decoder

  /** The name that a list of labels fills in. */
  function Build(n: Name, ls: seq<Label>): (r: Name)
    requires NameOk(n) && forall i :: 0 <= i < |ls| ==> |ls[i]| <= MAX_LABEL
    ensures NameOk(r)
    decreases |ls|
  {
    if ls == [] then n else Build(AddLabel(Visit(n), CStr(ls[0])), ls[1..])
  }

  /**
   * The decoder succeeds on exactly the inputs the lenient plain decoder accepts, and fills in the name that the
   * labels build; a pointer that leads to no label is still one thing more to come after the fourth part.
   */
  lemma {:induction false} ReadAgrees(p: seq<byte>, seg: nat, pos: nat, n: Name)
    requires seg <= pos && NameOk(n)
    ensures ReadName(p, seg, pos, n).Done? <==> Parse(p, seg, pos, true).Some?
    ensures ReadName(p, seg, pos, n).Done? ==>
              var x := Parse(p, seg, pos, true).value;
              && (forall i :: 0 <= i < |x.labels| ==> 1 <= |x.labels[i]| <= MAX_LABEL)
              && ReadName(p, seg, pos, n).name == if x.tight then Build(n, x.labels) else Visit(Build(n, x.labels))
    decreases seg, if pos < |p| then |p| - pos else 0
  {
    if pos < |p| && p[pos] != 0 {
      if p[pos] < 192 {
        var next := pos + 1 + p[pos];
        if p[pos] <= MAX_LABEL && next <= |p| {
          var l := p[pos + 1..next];
          ReadAgrees(p, seg, next, AddLabel(Visit(n), CStr(l)));
          var rest := Parse(p, seg, next, true);
          if rest.Some? {
            assert ([l] + rest.value.labels)[1..] == rest.value.labels;
          }
        }
      } else if pos + 1 < |p| {
        var target := Pointer(p[pos], p[pos + 1]);
        if target < seg {
          ReadAgrees(p, target, target, Visit(n));
          assert Visit(Visit(n)) == Visit(n);
        }
      }
    }
  }

  // ---------------------------------------------------------------- the decoder on memory

  class NameBuf {
    var parts: nat
    var fields: seq<seq<byte>>
    var sub: bool
    var invalid: bool

    constructor ()
      ensures Value() == EMPTY_NAME
    {
      parts, fields, sub, invalid := 0, [[], [], [], []], false, false;
    }

    function Value(): Name
      reads this
    {
      Name(parts, fields, sub, invalid)
    }

    method MarkOverlong()
      requires NameOk(Value())
      modifies this
      ensures Value() == Visit(old(Value())) && NameOk(Value()) && (parts == 4 ==> invalid)
    {
      if parts == 4 {
        invalid := true;
      }
    }

    /** The tail of the loop body: what is done with the label in the scratch buffer. */
    method Take(s: seq<byte>)
      requires NameOk(Value()) && (parts == 4 ==> invalid) && |s| <= MAX_LABEL && 0 !in s
      modifies this
      ensures Value() == AddLabel(old(Value()), s)
      ensures sub == (old(sub) || Same(s, SUB)) && invalid == old(invalid)
      ensures Same(s, SUB) ==> fields == old(fields) && parts == old(parts)
      ensures !Same(s, SUB) && old(parts) != 1 ==>
                if invalid then fields == old(fields) && parts == old(parts)
                else fields == old(fields)[old(parts) := s] && parts == old(parts) + 1
    {
      if parts == 1 && (s == [] || s[0] != UNDERSCORE)
         && !Same(s, LOCAL) && !Same(s, ARPA) && !Same(s, IP6) && !Same(s, IN_ADDR) {
        fields := fields[0 := Cat(Cat(fields[0], [46]), s)];
      } else if Same(s, SUB) {
        sub := true;
      } else if !invalid {
        fields := fields[parts := s];
        parts := parts + 1;
      }
    }
  }

  /** Copies one label into the scratch buffer, NUL-terminated, and stores it in the name. */
  method ReadLabel(packet: array<byte>, from: nat, len: nat, name: NameBuf, buf: array<byte>)
    requires len <= MAX_LABEL && from + len <= packet.Length
    requires buf.Length >= NAME_BUF_LEN && buf != packet
    requires NameOk(name.Value()) && (name.parts == 4 ==> name.invalid)
    modifies name, buf
    ensures name.Value() == AddLabel(old(name.Value()), CStr(packet[from..from + len]))
  {
    var i := 0;
    while i < len
      invariant 0 <= i <= len && name.Value() == old(name.Value())
      invariant buf[..i] == packet[from..from + i]
    {
      buf[i] := packet[from + i];
      i := i + 1;
    }
    buf[len] := 0;
    assert buf[..len] == packet[from..from + len];
    var s := CStr(buf[..len]);
    name.Take(s);
  }

  /** What the caller gets back, against what the decoder computes. */
  predicate Delivers(r: ReadResult, next: Option<nat>, n: Name) {
    if r.Done? then next == Some(r.next) && n == r.name else next == None
  }

  /** Terminates on every input: each recursive call starts strictly before this one. */
  method ReadFqdn(packet: array<byte>, start: nat, name: NameBuf, buf: array<byte>, packetLen: nat)
    returns (next: Option<nat>)
    requires packetLen <= packet.Length && buf.Length >= NAME_BUF_LEN && buf != packet
    requires NameOk(name.Value())
    modifies name, buf
    ensures Delivers(ReadName(packet[..packetLen], start, start, old(name.Value())), next, name.Value())
    decreases start, 1
  {
    ghost var n0 := name.Value();
    var pos := start;
    while pos < packetLen && packet[pos] != 0
      invariant start <= pos && NameOk(name.Value())
      invariant ReadName(packet[..packetLen], start, start, n0) ==
                ReadName(packet[..packetLen], start, pos, name.Value())
      decreases packetLen - pos
    {
      ghost var n := name.Value();
      name.MarkOverlong();
      if packet[pos] >= 192 {
        next := FollowPointer(packet, start, pos, name, buf, packetLen,
                              ReadName(packet[..packetLen], start, pos, n), n);
        return;
      }
      var after := TakeLabel(packet, start, pos, name, buf, packetLen, n);
      if after.None? {
        return None;
      }
      pos := after.value;
    }
    next := Some(pos + 1);
  }

  lemma ReadOneLabel(p: seq<byte>, start: nat, pos: nat, n: Name, n': Name)
    requires start <= pos < |p| && 0 < p[pos] <= MAX_LABEL && pos + 1 + p[pos] <= |p| && NameOk(n)
    requires n' == AddLabel(Visit(n), CStr(p[pos + 1..pos + 1 + p[pos]]))
    ensures ReadName(p, start, pos, n) == ReadName(p, start, pos + 1 + p[pos], n')
  {
  }

  method TakeLabel(packet: array<byte>, start: nat, pos: nat, name: NameBuf, buf: array<byte>, packetLen: nat,
                   ghost n: Name)
    returns (after: Option<nat>)
    requires packetLen <= packet.Length && buf.Length >= NAME_BUF_LEN && buf != packet
    requires start <= pos < packetLen && 0 < packet[pos] < 192
    requires NameOk(n) && name.Value() == Visit(n)
    modifies name, buf
    ensures after.None? ==> ReadName(packet[..packetLen], start, pos, n) == Fail
    ensures after.Some? ==>
              && pos < after.value <= packetLen && NameOk(name.Value())
              && ReadName(packet[..packetLen], start, pos, n) ==
                 ReadName(packet[..packetLen], start, after.value, name.Value())
  {
    var len := packet[pos];
    if len > MAX_LABEL || pos + 1 + len > packetLen {
      return None;
    }
    ghost var p, l := packet[..packetLen], packet[pos + 1..pos + 1 + len];
    assert p[pos + 1..pos + 1 + len] == l;
    ReadLabel(packet, pos + 1, len, name, buf);
    ReadOneLabel(p, start, pos, n, name.Value());
    assert packet[..packetLen] == p;
    after := Some(pos + 1 + len);
  }

  method FollowPointer(packet: array<byte>, start: nat, pos: nat, name: NameBuf, buf: array<byte>, packetLen: nat,
                       ghost r: ReadResult, ghost n: Name)
    returns (next: Option<nat>)
    requires packetLen <= packet.Length && buf.Length >= NAME_BUF_LEN && buf != packet
    requires start <= pos < packetLen && packet[pos] >= 192
    requires NameOk(n) && name.Value() == Visit(n) && r == ReadName(packet[..packetLen], start, pos, n)
    modifies name, buf
    ensures Delivers(r, next, name.Value())
    decreases start, 0
  {
    if pos + 1 >= packetLen {
      return None;
    }
    var address: nat := (packet[pos] as int - 192) * 256 + packet[pos + 1];
    if address >= start {
      return None;
    }
    next := ReadFqdn(packet, address, name, buf, packetLen);
    if next.Some? {
      next := Some(pos + 2);
    }
  }

  // ---------------------------------------------------------------- parse_fqdn

  /** The field shuffle and the domain check that follow a successful read. */
  function Settle(n: Name): (r: Name)
    requires NameOk(n)
    ensures NameOk(r)
  {
    if n.parts == 0 || n.invalid then n
    else
      var f := n.fields;
      var g := if n.parts == 3 then [[], f[0], f[1], f[2]]
               else if n.parts == 2 then [f[0], [], [], f[1]]
               else f;
      n.(fields := g, invalid := !Same(g[3], LOCAL) && !Same(g[3], ARPA))
  }

  function ParseName(p: seq<byte>, start: nat): ReadResult {
    match ReadName(p, start, start, EMPTY_NAME)
    case Fail => Fail
    case Done(n, next) => Done(Settle(n), next)
  }

  method ParseFqdn(packet: array<byte>, start: nat, name: NameBuf, buf: array<byte>, packetLen: nat)
    returns (next: Option<nat>)
    requires packetLen <= packet.Length && buf.Length >= NAME_BUF_LEN && buf != packet
    modifies name, buf
    ensures Delivers(ParseName(packet[..packetLen], start), next, name.Value())
  {
    name.parts, name.sub, name.invalid := 0, false, false;
    name.fields := [[], [], [], []];
    next := ReadFqdn(packet, start, name, buf, packetLen);
    if next.None? {
      return;
    }
    if name.parts == 0 || name.invalid {
      return;
    }
    if name.parts == 3 {
      name.fields := [[], name.fields[0], name.fields[1], name.fields[2]];
    } else if name.parts == 2 {
      name.fields := [name.fields[0], [], [], name.fields[1]];
    }
    if Same(name.fields[3], LOCAL) || Same(name.fields[3], ARPA) {
      return;
    }
    name.invalid := true;
  }
}
