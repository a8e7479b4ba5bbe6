/**
 * Exactly which names of a whole packet are read back: the condition of a single name, on the bytes that were sent.
 */
module PacketExact {
  import opened Basics
  import opened DnsNames
  import opened NameReader
  import opened NameWriter
  import opened NameRoundTrip
  import opened NameExact
  import opened PacketNames

  // ---------------------------------------------------------------- one name, whatever stands around it

  /** The place found for the rest of the name lies before `seg`, and in `q` that rest is read there. */
  predicate LeadsIn(q: seq<byte>, h: Halt, seg: nat)
    requires h.at <= |h.buf| && LabelsOk(h.left)
  {
    h.left == [] ||
    var found := Find(h.buf, 0, h.at, h.left);
    found.Some? && found.value < seg && ReadsAs(q, found.value, found.value, h.left)
  }

  /** The bytes of the name itself. */
  predicate OwnBytes(q: seq<byte>, r: Appended, index: nat)
    requires index + r.written <= |r.buf|
  {
    index + r.written <= |q| && forall i :: index <= i < index + r.written ==> q[i] == r.buf[i]
  }

  lemma PointerInPlace(q: seq<byte>, h: Halt, seg: nat, at: nat)
    requires seg <= h.at && h.at + 1 < |q| && at < h.at && at < 0x4000
    requires q[h.at] == PointerTo(at)[0] && q[h.at + 1] == PointerTo(at)[1]
    ensures ReadsAs(q, seg, h.at, h.left) <==> at < seg && ReadsAs(q, at, at, h.left)
  {
  }

  /**
   * In any bytes that hold the name itself, it is read at its offset if and only if it needed no pointer or the
   * place found lies before it and the rest of it is read there.
   */
  lemma {:induction false} ReadIn(buf: seq<byte>, seg: nat, index: nat, ss: seq<Label>, q: seq<byte>)
    returns (r: Appended, h: Halt)
    requires seg <= index && index + WireLen(ss) <= |buf| <= 0x4000 && LabelsOk(ss)
    requires OwnBytes(q, Append(buf, index, ss), index)
    ensures r == Append(buf, index, ss) && h == Written(buf, index, ss)
    ensures ReadsAs(q, seg, index, ss) <==> LeadsIn(q, h, seg)
    decreases |ss|
  {
    r := Append(buf, index, ss);
    if ss == [] {
      h := Halt(buf, index, ss);
      assert r.buf[index] == 0 && q[index] == r.buf[index];
    } else if Find(buf, 0, index, ss).Some? {
      h := Halt(buf, index, ss);
      var at := Find(buf, 0, index, ss).value;
      assert q[index] == r.buf[index] && q[index + 1] == r.buf[index + 1];
      PointerInPlace(q, h, seg, at);
    } else {
      var buf', index', ls := AfterLabel(buf, index, ss);
      var rest := Append(buf', index', ls);
      LabelIn(buf, seg, index, ss, q, rest);
      rest, h := ReadIn(buf', seg, index', ls, q);
    }
  }

  lemma LabelIn(buf: seq<byte>, seg: nat, index: nat, ss: seq<Label>, q: seq<byte>, rest: Appended)
    requires ss != [] && seg <= index && index + |ss[0]| + 1 < |buf| <= 0x4000 && LabelsOk(ss)
    requires Find(buf, 0, index, ss).None?
    requires rest == Append(Splice(buf, index, WireLabel(ss[0])), index + 1 + |ss[0]|, ss[1..])
    requires OwnBytes(q, Append(buf, index, ss), index)
    ensures OwnBytes(q, rest, index + 1 + |ss[0]|)
    ensures ReadsAs(q, seg, index, ss) <==> ReadsAs(q, seg, index + 1 + |ss[0]|, ss[1..])
  {
    var r := LabelAppended(buf, index, ss, rest);
    assert q[index] == r.buf[index];
    LabelReads(q, seg, index, ss);
  }

  // ---------------------------------------------------------------- all names of a packet

  /** A name as it was handed to the packet: the buffer and the index at that moment. */
  datatype Appending = Appending(buf: seq<byte>, index: nat, labels: seq<Label>)

  function Appendings(p: Packet, xs: seq<Piece>): seq<Appending>
    requires SizeOk(p)
    decreases |xs|
  {
    if xs == [] || !Fits(p, xs[0]) then []
    else (if xs[0].NamePiece? then [Appending(p.buf, p.index, xs[0].labels)] else [])
         + Appendings(Place(p, xs[0]), xs[1..])
  }

  /** Each name has room, and patches keep off the bytes of the names themselves, which are `own` so far. */
  ghost predicate Spared(p: Packet, xs: seq<Piece>, own: set<nat>)
    requires SizeOk(p)
    decreases |xs|
  {
    xs == [] ||
    (Fits(p, xs[0]) &&
     match xs[0]
     case NamePiece(labels) =>
       && p.index + WireLen(labels) <= |p.buf|
       && Spared(Place(p, xs[0]), xs[1..], own + Span(p.index, Place(p, xs[0]).index))
     case DataPiece(_) => Spared(Place(p, xs[0]), xs[1..], own)
     case PatchPiece(at, bytes) =>
       (forall i :: at <= i < at + |bytes| ==> i !in own) && Spared(Place(p, xs[0]), xs[1..], own))
  }

  lemma PieceKeeps(p: Packet, x: Piece, i: nat)
    requires SizeOk(p) && Fits(p, x) && i < p.index && (x.PatchPiece? ==> !(x.at <= i < x.at + |x.bytes|))
    ensures p.index <= Place(p, x).index && Place(p, x).buf[i] == p.buf[i]
  {
    if x.NamePiece? {
      AppendFrame(p.buf, p.index, x.labels, i);
    }
  }

  lemma {:induction false} IndexRises(p: Packet, xs: seq<Piece>)
    requires SizeOk(p)
    ensures p.index <= Assemble(p, xs).index && |Assemble(p, xs).buf| == |p.buf|
    decreases |xs|
  {
    if xs != [] && Fits(p, xs[0]) {
      IndexRises(Place(p, xs[0]), xs[1..]);
    }
  }

  /** The bytes of names stay to the end. */
  lemma {:induction false} OwnKept(p: Packet, xs: seq<Piece>, own: set<nat>, i: nat)
    requires SizeOk(p) && Spared(p, xs, own) && i in own && i < p.index
    ensures i < |Assemble(p, xs).buf| && Assemble(p, xs).buf[i] == p.buf[i]
    decreases |xs|
  {
    IndexRises(p, xs);
    if xs != [] {
      PieceKeeps(p, xs[0], i);
      var own' := if xs[0].NamePiece? then own + Span(p.index, Place(p, xs[0]).index) else own;
      OwnKept(Place(p, xs[0]), xs[1..], own', i);
    }
  }

  /** The `k`th name was appended to a buffer with room, and what was written for it is among the bytes sent. */
  predicate WrittenOut(a: Appending, sent: seq<byte>) {
    && LabelsOk(a.labels) && a.index + WireLen(a.labels) <= |a.buf| <= 0x4000
    && OwnBytes(sent, Append(a.buf, a.index, a.labels), a.index)
  }

  lemma FirstWrittenOut(p: Packet, xs: seq<Piece>, own: set<nat>, a: Appending, final: Packet)
    requires SizeOk(p) && Spared(p, xs, own) && xs != [] && xs[0].NamePiece?
    requires a == Appending(p.buf, p.index, xs[0].labels) && final == Assemble(p, xs)
    ensures WrittenOut(a, final.buf[..final.index])
  {
    var p1 := Place(p, xs[0]);
    var r, own' := Append(a.buf, a.index, a.labels), own + Span(p.index, p1.index);
    IndexRises(p1, xs[1..]);
    forall i | a.index <= i < a.index + r.written
      ensures final.buf[..final.index][i] == r.buf[i]
    {
      assert Between(p.index, i, p1.index);
      OwnKept(p1, xs[1..], own', i);
    }
  }

  /** The names after the first piece. */
  lemma NextAppending(p: Packet, xs: seq<Piece>, k: nat) returns (p1: Packet, k1: nat)
    requires SizeOk(p) && k < |Appendings(p, xs)| && !(xs[0].NamePiece? && k == 0)
    ensures xs != [] && Fits(p, xs[0]) && p1 == Place(p, xs[0]) && Assemble(p1, xs[1..]) == Assemble(p, xs)
    ensures k1 < |Appendings(p1, xs[1..])| && Appendings(p1, xs[1..])[k1] == Appendings(p, xs)[k]
  {
    p1 := Place(p, xs[0]);
    k1 := if xs[0].NamePiece? then k - 1 else k;
  }

  lemma {:induction false} AllWrittenOut(p: Packet, xs: seq<Piece>, own: set<nat>, k: nat, final: Packet)
    requires SizeOk(p) && Spared(p, xs, own) && k < |Appendings(p, xs)| && final == Assemble(p, xs)
    ensures WrittenOut(Appendings(p, xs)[k], final.buf[..final.index])
    decreases |xs|
  {
    if xs[0].NamePiece? && k == 0 {
      FirstWrittenOut(p, xs, own, Appendings(p, xs)[0], final);
    } else {
      var p1, k1 := NextAppending(p, xs, k);
      var own' := if xs[0].NamePiece? then own + Span(p.index, p1.index) else own;
      AllWrittenOut(p1, xs[1..], own', k1, final);
    }
  }

  /**
   * Whatever stood in the buffer before: each name handed to a packet is read back at its offset from the bytes sent
   * if and only if it needed no pointer, or the place found for its rest lies before it and the bytes sent
   * read there as that rest.
   */
  lemma EveryNameExactly(stale: seq<byte>, headLen: nat, xs: seq<Piece>, k: nat) returns (a: Appending, h: Halt)
    requires headLen <= |stale| <= 0x4000
    requires Spared(Packet(stale, headLen, {}, {}, []), xs, {})
    requires k < |Appendings(Packet(stale, headLen, {}, {}, []), xs)|
    ensures var p0 := Packet(stale, headLen, {}, {}, []);
            var sent := Assemble(p0, xs).buf[..Assemble(p0, xs).index];
            && a == Appendings(p0, xs)[k] && LabelsOk(a.labels) && a.index <= |a.buf|
            && h == Written(a.buf, a.index, a.labels)
            && (ReadsAs(sent, a.index, a.index, a.labels) <==> LeadsIn(sent, h, a.index))
  {
    var p0 := Packet(stale, headLen, {}, {}, []);
    var final := Assemble(p0, xs);
    a := Appendings(p0, xs)[k];
    AllWrittenOut(p0, xs, {}, k, final);
    var r;
    r, h := ReadIn(a.buf, a.index, a.index, a.labels, final.buf[..final.index]);
  }

  // ---------------------------------------------------------------- when nothing is patched

  lemma WrittenGoesOn(buf: seq<byte>, index: nat, ss: seq<Label>) returns (buf': seq<byte>, index': nat, ls: seq<Label>)
    requires index <= |buf| <= 0x4000 && LabelsOk(ss)
    requires ss != [] && Find(buf, 0, index, ss).None? && index + |ss[0]| + 1 < |buf|
    ensures index' <= |buf'| == |buf| && LabelsOk(ls) && |ls| < |ss|
    ensures Written(buf, index, ss) == Written(buf', index', ls)
            && Append(buf, index, ss).buf == Append(buf', index', ls).buf
  {
    buf', index', ls := Splice(buf, index, WireLabel(ss[0])), index + 1 + |ss[0]|, ss[1..];
  }

  /** What was written of the name before the pointer is there in the end. */
  lemma {:induction false} WrittenStays(buf: seq<byte>, index: nat, ss: seq<Label>, h: Halt, r: Appended, i: nat)
    requires index <= |buf| <= 0x4000 && LabelsOk(ss) && h == Written(buf, index, ss)
             && r.buf == Append(buf, index, ss).buf
    requires i < h.at
    ensures r.buf[i] == h.buf[i]
    decreases |ss|
  {
    if ss == [] || Find(buf, 0, index, ss).Some? || index + |ss[0]| + 1 >= |buf| {
      AppendFrame(buf, index, ss, i);
    } else {
      var buf', index', ls := WrittenGoesOn(buf, index, ss);
      WrittenStays(buf', index', ls, h, r, i);
    }
  }

  /** The pointer stands at the halt. */
  lemma {:induction false} PointerStands(buf: seq<byte>, index: nat, ss: seq<Label>)
    requires index + WireLen(ss) <= |buf| <= 0x4000 && LabelsOk(ss) && Written(buf, index, ss).left != []
    ensures var r, h := Append(buf, index, ss), Written(buf, index, ss);
            var found := Find(h.buf, 0, h.at, h.left);
            && found.Some? && index + r.written == h.at + 2
            && r.buf[h.at] == PointerTo(found.value)[0] && r.buf[h.at + 1] == PointerTo(found.value)[1]
    decreases |ss|
  {
    if Find(buf, 0, index, ss).None? {
      var buf', index', ls := AfterLabel(buf, index, ss);
      PointerStands(buf', index', ls);
    }
  }

  lemma ReadThenToo(h: Halt, q: seq<byte>, at: nat, x: Parsed)
    requires h.at + 1 < |q| <= |h.buf| <= 0x4000 && at < h.at && (h.at > 0 ==> h.buf[h.at - 1] < 192)
    requires forall i :: 0 <= i < h.at ==> q[i] == h.buf[i]
    requires q[h.at] == PointerTo(at)[0] && q[h.at + 1] == PointerTo(at)[1]
    requires Parse(q, at, at, false) == Some(x) && FreeOf(x.labels, PointerTo(at)[0])
    ensures Parse(h.buf, at, at, false) == Some(x) && forall i <- x.bytes :: i < h.at
  {
    var long := q + h.buf[|q|..];
    ParseLocal(q, long, at, at, x);
    ReadsBefore(h.buf, long, at, at, h.at, x);
  }

  /** Where the bytes before the pointer are as they were, the condition is that of the moment the name was appended. */
  lemma AsWhenAppended(h: Halt, seg: nat, q: seq<byte>, at: nat)
    requires h.at + 1 < |q| <= |h.buf| <= 0x4000 && LabelsOk(h.left) && StandsAlone(h) && h.left != []
    requires forall i :: 0 <= i < h.at ==> q[i] == h.buf[i]
    requires Find(h.buf, 0, h.at, h.left) == Some(at) && q[h.at] == PointerTo(at)[0] && q[h.at + 1] == PointerTo(at)[1]
    ensures LeadsIn(q, h, seg) <==> LeadsBack(h, seg)
  {
    if LeadsBack(h, seg) {
      ParseLocal(h.buf, q, at, at, Parse(h.buf, at, at, false).value);
    }
    if LeadsIn(q, h, seg) {
      var x := Parse(q, at, at, false).value;
      FreeUpToCase(x.labels, h.left, PointerTo(at)[0]);
      ReadThenToo(h, q, at, x);
    }
  }

  predicate Unpatched(xs: seq<Piece>) {
    forall x <- xs :: !x.PatchPiece?
  }

  lemma {:induction false} BelowKept(p: Packet, xs: seq<Piece>, i: nat)
    requires SizeOk(p) && Unpatched(xs) && i < p.index
    ensures i < |Assemble(p, xs).buf| && Assemble(p, xs).buf[i] == p.buf[i]
    decreases |xs|
  {
    IndexRises(p, xs);
    if xs != [] && Fits(p, xs[0]) {
      assert xs[0] in xs && forall x <- xs[1..] :: x in xs;
      PieceKeeps(p, xs[0], i);
      BelowKept(Place(p, xs[0]), xs[1..], i);
    }
  }

  /** All bytes up to the end of the name stay as they were then. */
  predicate KeptUpTo(a: Appending, sent: seq<byte>)
    requires LabelsOk(a.labels) && a.index <= |a.buf| <= 0x4000
  {
    var r := Append(a.buf, a.index, a.labels);
    a.index + r.written <= |sent| <= |a.buf| && forall i :: 0 <= i < a.index + r.written ==> sent[i] == r.buf[i]
  }

  lemma {:induction false} AllKept(p: Packet, xs: seq<Piece>, k: nat, final: Packet)
    requires SizeOk(p) && Unpatched(xs) && k < |Appendings(p, xs)| && final == Assemble(p, xs)
    ensures var a := Appendings(p, xs)[k];
            LabelsOk(a.labels) && a.index <= |a.buf| <= 0x4000 && KeptUpTo(a, final.buf[..final.index])
    decreases |xs|
  {
    assert xs[0] in xs && forall x <- xs[1..] :: x in xs;
    if xs[0].NamePiece? && k == 0 {
      FirstKept(Place(p, xs[0]), xs[1..], final);
    } else {
      var p1, k1 := NextAppending(p, xs, k);
      AllKept(p1, xs[1..], k1, final);
    }
  }

  lemma FirstKept(p: Packet, xs: seq<Piece>, final: Packet)
    requires SizeOk(p) && Unpatched(xs) && final == Assemble(p, xs)
    ensures p.index <= final.index <= |final.buf| == |p.buf|
    ensures forall i :: 0 <= i < p.index ==> final.buf[..final.index][i] == p.buf[i]
  {
    IndexRises(p, xs);
    forall i: nat | i < p.index
      ensures final.buf[..final.index][i] == p.buf[i]
    {
      BelowKept(p, xs, i);
    }
  }

  lemma SameCondition(a: Appending, h: Halt, sent: seq<byte>)
    requires WrittenOut(a, sent) && KeptUpTo(a, sent) && h == Written(a.buf, a.index, a.labels)
    requires StandsAlone(h) && h.left != []
    ensures LeadsIn(sent, h, a.index) <==> LeadsBack(h, a.index)
  {
    PointerStands(a.buf, a.index, a.labels);
    forall i: nat | i < h.at
      ensures sent[i] == h.buf[i]
    {
      WrittenStays(a.buf, a.index, a.labels, h, Append(a.buf, a.index, a.labels), i);
    }
    AsWhenAppended(h, a.index, sent, Find(h.buf, 0, h.at, h.left).value);
  }

  /** In a packet without patches a name is read back if and only if it could be when it was appended. */
  lemma EveryNameUnpatched(stale: seq<byte>, headLen: nat, xs: seq<Piece>, k: nat) returns (a: Appending, h: Halt)
    requires headLen <= |stale| <= 0x4000 && Unpatched(xs)
    requires Spared(Packet(stale, headLen, {}, {}, []), xs, {})
    requires k < |Appendings(Packet(stale, headLen, {}, {}, []), xs)|
    ensures var p0 := Packet(stale, headLen, {}, {}, []);
            var sent := Assemble(p0, xs).buf[..Assemble(p0, xs).index];
            && a == Appendings(p0, xs)[k] && LabelsOk(a.labels) && a.index <= |a.buf|
            && h == Written(a.buf, a.index, a.labels)
            && (StandsAlone(h) ==> (ReadsAs(sent, a.index, a.index, a.labels) <==> LeadsBack(h, a.index)))
  {
    var p0 := Packet(stale, headLen, {}, {}, []);
    var final := Assemble(p0, xs);
    a, h := EveryNameExactly(stale, headLen, xs, k);
    AllKept(p0, xs, k, final);
    AllWrittenOut(p0, xs, {}, k, final);
    if StandsAlone(h) && h.left != [] {
      SameCondition(a, h, final.buf[..final.index]);
    }
  }
}
