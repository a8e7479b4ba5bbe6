/** Bytes, labels and C strings, and the plain label decoder of section 4.1.4 of RFC 1035. */
module DnsNames {
  import opened Basics

  type byte = x: int | 0 <= x < 256

  type Label = seq<byte>

  const MAX_LABEL := 63
  const NAME_BUF_LEN := 65
  const UNDERSCORE: byte := 95
  const LOCAL: Label := [108, 111, 99, 97, 108]
  const ARPA: Label := [97, 114, 112, 97]
  const IP6: Label := [105, 112, 54]
  const IN_ADDR: Label := [105, 110, 45, 97, 100, 100, 114]
  const SUB: Label := [95, 115, 117, 98]

  function Lower(b: byte): byte {
    if 65 <= b <= 90 then b + 32 else b
  }

  /** `strcasecmp` in the C locale. */
  predicate Same(a: Label, b: Label) {
    |a| == |b| && forall i :: 0 <= i < |a| ==> Lower(a[i]) == Lower(b[i])
  }

  predicate AllSame(xs: seq<Label>, ys: seq<Label>) {
    |xs| == |ys| && forall i :: 0 <= i < |xs| ==> Same(xs[i], ys[i])
  }

  /** What can be one label on the wire and one C string at the same time. */
  predicate LabelOk(l: Label) {
    1 <= |l| <= MAX_LABEL && 0 !in l
  }

  predicate LabelsOk(ls: seq<Label>) {
    forall i :: 0 <= i < |ls| ==> LabelOk(ls[i])
  }

  /** The C string in a buffer that starts with `s` and a NUL. */
  function CStr(s: seq<byte>): (r: seq<byte>)
    ensures 0 !in r && |r| <= |s|
    ensures 0 !in s ==> r == s
  {
    if s == [] || s[0] == 0 then [] else [s[0]] + CStr(s[1..])
  }

  // ---------------------------------------------------------------- plain decoding

  /** The labels of a name, the positions its encoding occupies, and whether every pointer leads to a label. */
  datatype Parsed = Parsed(labels: seq<Label>, bytes: set<nat>, tight: bool)

  predicate Between(from: nat, i: nat, to: nat) {
    from <= i < to
  }

  function Span(from: nat, to: nat): set<nat> {
    set i: nat | 0 <= i < to && Between(from, i, to)
  }

  function Pointer(hi: byte, lo: byte): nat
    requires hi >= 192
  {
    (hi - 192) * 256 + lo
  }

  /**
   * Decode from `pos`, in a run of labels that began at `seg`; a pointer must lead to before `seg`.
   * With `lenient`, the end of the data stands for a missing terminator.
   */
  function Parse(p: seq<byte>, seg: nat, pos: nat, lenient: bool): (r: Option<Parsed>)
    requires seg <= pos
    ensures r.Some? ==> forall i <- r.value.bytes :: i < |p|
    decreases seg, if pos < |p| then |p| - pos else 0
  {
    if pos >= |p| then
      if lenient then Some(Parsed([], {}, true)) else None
    else if p[pos] == 0 then
      Some(Parsed([], {pos}, true))
    else if p[pos] < 192 then
      var next := pos + 1 + p[pos];
      if p[pos] > MAX_LABEL || next > |p| then None
      else
        var rest := Parse(p, seg, next, lenient);
        if rest.None? then None
        else Some(Parsed([p[pos + 1..next]] + rest.value.labels, Span(pos, next) + rest.value.bytes, rest.value.tight))
    else if pos + 1 >= |p| then None
    else
      var target := Pointer(p[pos], p[pos + 1]);
      if target >= seg then None
      else
        var rest := Parse(p, target, target, lenient);
        if rest.None? then None
        else Some(Parsed(rest.value.labels, Span(pos, pos + 2) + rest.value.bytes,
                         rest.value.tight && rest.value.labels != []))
  }

  lemma ParseLabel(p: seq<byte>, seg: nat, pos: nat, rest: Parsed)
    requires seg <= pos < |p| && 0 < p[pos] <= MAX_LABEL && pos + 1 + p[pos] <= |p|
    requires Parse(p, seg, pos + 1 + p[pos], false) == Some(rest)
    ensures var next := pos + 1 + p[pos];
            Parse(p, seg, pos, false) ==
            Some(Parsed([p[pos + 1..next]] + rest.labels, Span(pos, next) + rest.bytes, rest.tight))
  {
  }

  lemma ParsePointer(p: seq<byte>, seg: nat, pos: nat, target: nat, rest: Parsed)
    requires seg <= pos && pos + 1 < |p| && p[pos] >= 192 && target == Pointer(p[pos], p[pos + 1]) < seg
    requires Parse(p, target, target, false) == Some(rest)
    ensures Parse(p, seg, pos, false) ==
            Some(Parsed(rest.labels, Span(pos, pos + 2) + rest.bytes, rest.tight && rest.labels != []))
  {
  }

  lemma SpanMembers(from: nat, to: nat, bytes: set<nat>)
    requires Span(from, to) <= bytes
    ensures forall i :: from <= i < to ==> i in bytes
  {
    forall i | from <= i < to
      ensures i in bytes
    {
      assert i in Span(from, to);
    }
  }

  /** The bytes a strict decoding has seen are in `q` as well. */
  predicate SeenIn(x: Parsed, p: seq<byte>, q: seq<byte>) {
    forall i <- x.bytes :: i < |p| && i < |q| && q[i] == p[i]
  }

  lemma LabelSeen(p: seq<byte>, q: seq<byte>, seg: nat, pos: nat, x: Parsed) returns (next: nat, rest: Parsed)
    requires seg <= pos < |p| && Parse(p, seg, pos, false) == Some(x) && 0 < p[pos] < 192 && SeenIn(x, p, q)
    ensures next == pos + 1 + p[pos] <= |q| && q[pos] == p[pos] <= MAX_LABEL && q[pos + 1..next] == p[pos + 1..next]
    ensures Parse(p, seg, next, false) == Some(rest) && SeenIn(rest, p, q)
    ensures x == Parsed([p[pos + 1..next]] + rest.labels, Span(pos, next) + rest.bytes, rest.tight)
  {
    next := pos + 1 + p[pos];
    rest := Parse(p, seg, next, false).value;
    SpanMembers(pos, next, x.bytes);
    assert pos in x.bytes && next - 1 in x.bytes;
  }

  lemma PointerSeen(p: seq<byte>, q: seq<byte>, seg: nat, pos: nat, x: Parsed) returns (target: nat, rest: Parsed)
    requires seg <= pos < |p| && Parse(p, seg, pos, false) == Some(x) && p[pos] >= 192 && SeenIn(x, p, q)
    ensures pos + 1 < |q| && q[pos] == p[pos] && target == Pointer(q[pos], q[pos + 1]) < seg
    ensures Parse(p, target, target, false) == Some(rest) && SeenIn(rest, p, q)
    ensures x == Parsed(rest.labels, Span(pos, pos + 2) + rest.bytes, rest.tight && rest.labels != [])
  {
    target := Pointer(p[pos], p[pos + 1]);
    rest := Parse(p, target, target, false).value;
    SpanMembers(pos, pos + 2, x.bytes);
    assert pos in x.bytes && pos + 1 in x.bytes;
  }

  /** Strict decoding succeeds only on bytes it has seen, so it depends on those bytes alone. */
  lemma {:induction false} ParseLocal(p: seq<byte>, q: seq<byte>, seg: nat, pos: nat, x: Parsed)
    requires seg <= pos && Parse(p, seg, pos, false) == Some(x) && SeenIn(x, p, q)
    ensures Parse(q, seg, pos, false) == Some(x)
    decreases seg, if pos < |p| then |p| - pos else 0
  {
    if p[pos] == 0 {
      assert pos in x.bytes;
    } else if p[pos] < 192 {
      var next, rest := LabelSeen(p, q, seg, pos, x);
      ParseLocal(p, q, seg, next, rest);
      ParseLabel(q, seg, pos, rest);
    } else {
      var target, rest := PointerSeen(p, q, seg, pos, x);
      ParseLocal(p, q, target, target, rest);
      ParsePointer(q, seg, pos, target, rest);
    }
  }

  /** A later segment start admits more pointers. */
  lemma {:induction false} ParseLaterSegment(p: seq<byte>, seg: nat, seg': nat, pos: nat)
    requires seg <= seg' <= pos && Parse(p, seg, pos, false).Some?
    ensures Parse(p, seg', pos, false) == Parse(p, seg, pos, false)
    decreases if pos < |p| then |p| - pos else 0
  {
    if p[pos] != 0 && p[pos] < 192 {
      ParseLaterSegment(p, seg, seg', pos + 1 + p[pos]);
    }
  }

  lemma {:induction false} ParseLenient(p: seq<byte>, seg: nat, pos: nat)
    requires seg <= pos && Parse(p, seg, pos, false).Some?
    ensures Parse(p, seg, pos, true) == Parse(p, seg, pos, false)
    decreases seg, if pos < |p| then |p| - pos else 0
  {
    if p[pos] != 0 {
      if p[pos] < 192 {
        ParseLenient(p, seg, pos + 1 + p[pos]);
      } else {
        var target := Pointer(p[pos], p[pos + 1]);
        ParseLenient(p, target, target);
      }
    }
  }
}
