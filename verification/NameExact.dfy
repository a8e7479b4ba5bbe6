/**
 * Exactly when an appended name can be read back at its offset, as a condition on the buffer before the pointer
 * that ends the name is written.
 */
module NameExact {
  import opened Basics
  import opened DnsNames
  import opened NameReader
  import opened NameWriter
  import opened NameRoundTrip

  /** The buffer once no more labels are written, where the pointer or the terminator goes, and the labels left. */
  datatype Halt = Halt(buf: seq<byte>, at: nat, left: seq<Label>)

  function Written(buf: seq<byte>, index: nat, ss: seq<Label>): (h: Halt)
    requires index <= |buf| && LabelsOk(ss)
    ensures |h.buf| == |buf| && index <= h.at <= |buf| && LabelsOk(h.left)
    decreases |ss|
  {
    if ss == [] || Find(buf, 0, index, ss).Some? || index + |ss[0]| + 1 >= |buf| then Halt(buf, index, ss)
    else Written(Splice(buf, index, WireLabel(ss[0])), index + 1 + |ss[0]|, ss[1..])
  }

  /** The labels `ls` (if any) can be read from `pos` on, up to case. */
  predicate ReadsAs(q: seq<byte>, seg: nat, pos: nat, ls: seq<Label>)
    requires seg <= pos
  {
    var x := Parse(q, seg, pos, false);
    x.Some? && AllSame(x.value.labels, ls)
  }

  lemma LabelReads(q: seq<byte>, seg: nat, index: nat, ss: seq<Label>)
    requires seg <= index && ss != [] && LabelOk(ss[0]) && StandsAt(q, index, ss[0])
    ensures ReadsAs(q, seg, index, ss) <==> ReadsAs(q, seg, index + 1 + |ss[0]|, ss[1..])
  {
    var next := index + 1 + |ss[0]|;
    assert q[index + 1..next] == ss[0];
    var tail := Parse(q, seg, next, false);
    if tail.Some? {
      LabelThenRest(q, seg, index, ss[0]);
      var ls := [ss[0]] + tail.value.labels;
      assert AllSame(ls, ss) <==> AllSame(tail.value.labels, ss[1..]) by {
        assert ls[1..] == tail.value.labels;
        assert forall i :: 1 <= i < |ss| ==> ss[i] == ss[1..][i - 1];
        assert forall i :: 1 <= i < |ls| ==> ls[i] == tail.value.labels[i - 1];
      }
    }
  }

  /** The labels left stand at `at`, encoded in bytes that lie before the halt. */
  predicate Holds(h: Halt, at: nat) {
    var x := Parse(h.buf, at, at, false);
    x.Some? && AllSame(x.value.labels, h.left) && forall i <- x.value.bytes :: i < h.at
  }

  /** The byte `c` is in none of the labels. */
  predicate FreeOf(ss: seq<Label>, c: byte) {
    forall k :: 0 <= k < |ss| ==> c !in ss[k]
  }

  lemma FreeUpToCase(ls: seq<Label>, ss: seq<Label>, c: byte)
    requires AllSame(ls, ss) && FreeOf(ss, c) && c >= 192
    ensures FreeOf(ls, c)
  {
    forall k, i | 0 <= k < |ls| && 0 <= i < |ls[k]|
      ensures ls[k][i] != c
    {
      assert Same(ls[k], ss[k]) && Lower(ls[k][i]) == Lower(ss[k][i]) && ss[k][i] in ss[k];
    }
  }

  lemma FreeTail(l: Label, ls: seq<Label>, c: byte)
    requires FreeOf([l] + ls, c)
    ensures FreeOf(ls, c) && c !in l
  {
    assert ([l] + ls)[0] == l;
    assert forall k :: 0 <= k < |ls| ==> ls[k] == ([l] + ls)[k + 1];
  }

  /**
   * A pointer at `j` that leads to where reading began (or behind it) cannot be read through, so a name that is
   * read all the same does without the bytes from `j` on: no label of it reaches over `j`, nor does a pointer.
   */
  lemma {:induction false} ReadsBefore(p: seq<byte>, q: seq<byte>, seg: nat, pos: nat, j: nat, x: Parsed)
    requires seg <= pos <= j && j + 1 < |q| == |p| && forall i :: 0 <= i < j ==> p[i] == q[i]
    requires q[j] >= 192 && seg <= Pointer(q[j], q[j + 1]) && (j > 0 ==> p[j - 1] < 192)
    requires Parse(q, seg, pos, false) == Some(x) && FreeOf(x.labels, q[j])
    ensures Parse(p, seg, pos, false) == Some(x) && forall i <- x.bytes :: i < j
    decreases seg, |p| - pos
  {
    assert pos < j;
    if q[pos] == 0 {
    } else if q[pos] < 192 {
      var rest := LabelEnds(q, seg, pos, j, x);
      ReadsBefore(p, q, seg, pos + 1 + q[pos], j, rest);
      SameLabel(p, q, seg, pos, j, x, rest);
    } else {
      var target := Pointer(q[pos], q[pos + 1]);
      assert pos + 1 < j;
      var rest := Parse(q, target, target, false).value;
      ReadsBefore(p, q, target, target, j, rest);
      ParsePointer(p, seg, pos, target, rest);
    }
  }

  /** A label free of the byte at `j` ends before it. */
  lemma LabelEnds(q: seq<byte>, seg: nat, pos: nat, j: nat, x: Parsed) returns (rest: Parsed)
    requires seg <= pos < j < |q| && 0 < q[pos] < 192
    requires Parse(q, seg, pos, false) == Some(x) && FreeOf(x.labels, q[j])
    ensures q[pos] <= MAX_LABEL && pos + 1 + q[pos] <= j && Parse(q, seg, pos + 1 + q[pos], false) == Some(rest)
    ensures FreeOf(rest.labels, q[j])
  {
    var next := pos + 1 + q[pos];
    rest := Parse(q, seg, next, false).value;
    FreeTail(q[pos + 1..next], rest.labels, q[j]);
    EndsBefore(q, pos, next, j);
  }

  lemma SameLabel(p: seq<byte>, q: seq<byte>, seg: nat, pos: nat, j: nat, x: Parsed, rest: Parsed)
    requires seg <= pos < j < |q| == |p| && (forall i :: 0 <= i < j ==> p[i] == q[i]) && 0 < q[pos] <= MAX_LABEL
    requires pos + 1 + q[pos] <= j && Parse(q, seg, pos, false) == Some(x)
    requires Parse(q, seg, pos + 1 + q[pos], false) == Some(rest)
    requires Parse(p, seg, pos + 1 + q[pos], false) == Some(rest)
    requires forall i <- rest.bytes :: i < j
    ensures Parse(p, seg, pos, false) == Some(x) && forall i <- x.bytes :: i < j
  {
    var next := pos + 1 + q[pos];
    assert p[pos + 1..next] == q[pos + 1..next];
    ParseLabel(p, seg, pos, rest);
    ParseLabel(q, seg, pos, rest);
  }

  lemma ParsePointer(p: seq<byte>, seg: nat, pos: nat, target: nat, rest: Parsed)
    requires seg <= pos && pos + 1 < |p| && p[pos] >= 192 && target == Pointer(p[pos], p[pos + 1]) && target < seg
    requires Parse(p, target, target, false) == Some(rest)
    ensures Parse(p, seg, pos, false) ==
            Some(Parsed(rest.labels, Span(pos, pos + 2) + rest.bytes, rest.tight && rest.labels != []))
  {
  }

  lemma EndsBefore(q: seq<byte>, pos: nat, next: nat, j: nat)
    requires pos < j < |q| && pos < next <= |q| && q[j] !in q[pos + 1..next]
    ensures next <= j
  {
    assert forall k :: pos < k < next ==> q[pos + 1..next][k - pos - 1] == q[k];
  }

  /** The pointer that ends the name, and what it takes to read through it. */
  lemma PointerReads(h: Halt, seg: nat, q: seq<byte>, at: nat)
    requires seg <= h.at && h.at + 1 < |h.buf| <= 0x4000 && at < h.at && q == Splice(h.buf, h.at, PointerTo(at))
    ensures at < seg && Holds(h, at) ==> ReadsAs(q, seg, h.at, h.left)
    ensures FreeOf(h.left, PointerTo(at)[0]) && (h.at > 0 ==> h.buf[h.at - 1] < 192)
            && ReadsAs(q, seg, h.at, h.left) ==>
              at < seg && Holds(h, at)
  {
    assert q[h.at] == PointerTo(at)[0] && q[h.at + 1] == PointerTo(at)[1];
    if at < seg && Holds(h, at) {
      ParseLocal(h.buf, q, at, at, Parse(h.buf, at, at, false).value);
    }
    if FreeOf(h.left, PointerTo(at)[0]) && (h.at > 0 ==> h.buf[h.at - 1] < 192) && ReadsAs(q, seg, h.at, h.left) {
      var x := Parse(q, at, at, false);
      FreeUpToCase(x.value.labels, h.left, PointerTo(at)[0]);
      ReadsBefore(h.buf, q, at, at, h.at, x.value);
    }
  }

  /** No labels are left, or the search leads to a place before `seg` that holds them. */
  predicate LeadsBack(h: Halt, seg: nat)
    requires h.at <= |h.buf| && LabelsOk(h.left)
  {
    h.left == [] ||
    var found := Find(h.buf, 0, h.at, h.left);
    found.Some? && found.value < seg && Holds(h, found.value)
  }

  /**
   * The byte before the pointer is not the first byte of another, and the first byte of the pointer is in none of
   * the labels left: the pointer cannot be read as part of something else.
   */
  predicate StandsAlone(h: Halt)
    requires h.at <= |h.buf| && LabelsOk(h.left)
  {
    && (h.at > 0 ==> h.buf[h.at - 1] < 192)
    && (h.left != [] ==>
          var found := Find(h.buf, 0, h.at, h.left);
          found.Some? && found.value < 0x4000 ==> FreeOf(h.left, PointerTo(found.value)[0]))
  }

  /** What is read at the name's offset in the result `q`, against where the search led. */
  ghost predicate Exact(q: seq<byte>, h: Halt, seg: nat, index: nat, ss: seq<Label>)
    requires seg <= index && h.at <= |h.buf| && LabelsOk(h.left)
  {
    && (LeadsBack(h, seg) ==> ReadsAs(q, seg, index, ss))
    && (StandsAlone(h) && ReadsAs(q, seg, index, ss) ==> LeadsBack(h, seg))
  }

  /**
   * With room for the name, it can be read back at its offset if it needed no pointer, or the place where the rest
   * of it was found lies before the name and holds that rest, in bytes before the pointer. Where the pointer stands
   * alone, only then.
   */
  lemma {:induction false} RoundTripExactly(buf: seq<byte>, seg: nat, index: nat, ss: seq<Label>)
    returns (r: Appended, h: Halt)
    requires seg <= index && index + WireLen(ss) <= |buf| <= 0x4000 && LabelsOk(ss)
    ensures r == Append(buf, index, ss) && h == Written(buf, index, ss)
    ensures Exact(r.buf, h, seg, index, ss)
    decreases |ss|
  {
    if ss == [] {
      r, h := EndsInZero(buf, seg, index);
    } else if Find(buf, 0, index, ss).Some? {
      r, h := EndsInPointer(buf, seg, index, ss);
    } else {
      var buf', index', ls := AfterLabel(buf, index, ss);
      r, h := RoundTripExactly(buf', seg, index', ls);
      r := OneMoreLabel(buf, seg, index, ss, buf', index', ls, r, h);
    }
  }

  /** The buffer, the index and the labels left after one label. */
  lemma AfterLabel(buf: seq<byte>, index: nat, ss: seq<Label>) returns (buf': seq<byte>, index': nat, ls: seq<Label>)
    requires index + WireLen(ss) <= |buf| <= 0x4000 && LabelsOk(ss) && ss != []
    ensures buf' == Splice(buf, index, WireLabel(ss[0])) && index' == index + 1 + |ss[0]| && ls == ss[1..]
    ensures index' + WireLen(ls) <= |buf'| == |buf| && LabelsOk(ls) && index + |ss[0]| + 1 < |buf|
  {
    buf', index', ls := Splice(buf, index, WireLabel(ss[0])), index + 1 + |ss[0]|, ss[1..];
  }

  lemma OneMoreLabel(buf: seq<byte>, seg: nat, index: nat, ss: seq<Label>,
                     buf': seq<byte>, index': nat, ls: seq<Label>, rest: Appended, h: Halt) returns (r: Appended)
    requires ss != [] && seg <= index && index + |ss[0]| + 1 < |buf| <= 0x4000 && LabelsOk(ss)
    requires Find(buf, 0, index, ss).None?
    requires buf' == Splice(buf, index, WireLabel(ss[0])) && index' == index + 1 + |ss[0]| && ls == ss[1..]
    requires rest == Append(buf', index', ls) && h == Written(buf', index', ls) && Exact(rest.buf, h, seg, index', ls)
    ensures r == Append(buf, index, ss) && h == Written(buf, index, ss) && Exact(r.buf, h, seg, index, ss)
  {
    r := LabelAppended(buf, index, ss, rest);
    LabelReads(r.buf, seg, index, ss);
  }

  lemma EndsInZero(buf: seq<byte>, seg: nat, index: nat) returns (r: Appended, h: Halt)
    requires seg <= index < |buf| <= 0x4000
    ensures r == Append(buf, index, []) && h == Written(buf, index, [])
    ensures Exact(r.buf, h, seg, index, [])
  {
    r, h := Append(buf, index, []), Halt(buf, index, []);
    assert r.buf[index] == 0;
  }

  lemma EndsInPointer(buf: seq<byte>, seg: nat, index: nat, ss: seq<Label>) returns (r: Appended, h: Halt)
    requires seg <= index && index + WireLen(ss) <= |buf| <= 0x4000 && LabelsOk(ss)
    requires ss != [] && Find(buf, 0, index, ss).Some?
    ensures r == Append(buf, index, ss) && h == Written(buf, index, ss)
    ensures Exact(r.buf, h, seg, index, ss)
  {
    r, h := Append(buf, index, ss), Halt(buf, index, ss);
    PointerReads(h, seg, r.buf, Find(buf, 0, index, ss).value);
  }

  /** Names and preceding bytes below 192, as in ASCII, are enough for that. */
  lemma {:induction false} AsciiStandsAlone(buf: seq<byte>, index: nat, ss: seq<Label>)
    requires index <= |buf| && LabelsOk(ss) && (index > 0 ==> buf[index - 1] < 192)
    requires forall k, i :: 0 <= k < |ss| && 0 <= i < |ss[k]| ==> ss[k][i] < 192
    ensures StandsAlone(Written(buf, index, ss))
    decreases |ss|
  {
    if !(ss == [] || Find(buf, 0, index, ss).Some? || index + |ss[0]| + 1 >= |buf|) {
      LastByte(buf, index, ss[0]);
      AsciiStandsAlone(Splice(buf, index, WireLabel(ss[0])), index + 1 + |ss[0]|, ss[1..]);
    }
  }

  lemma LastByte(buf: seq<byte>, index: nat, l: Label)
    requires LabelOk(l) && index + |l| + 1 <= |buf|
    ensures Splice(buf, index, WireLabel(l))[index + |l|] == l[|l| - 1]
  {
    assert WireLabel(l)[|l|] == l[|l| - 1];
  }

  lemma SpliceSame(buf: seq<byte>, at: nat, bytes: seq<byte>)
    requires at + |bytes| <= |buf| && buf[at..at + |bytes|] == bytes
    ensures Splice(buf, at, bytes) == buf
  {
    assert forall i :: at <= i < at + |bytes| ==> buf[i] == buf[at..at + |bytes|][i - at];
  }

  /** Two bytes that are the pointer to `at`, behind their length at `at` and before a zero, none of them sent yet. */
  predicate Stale(buf: seq<byte>, at: nat, l: Label) {
    && at + 4 < |buf| <= 0x4000 && l == PointerTo(at) && LabelOk(l)
    && buf[at] == 2 && buf[at + 1..at + 3] == l && buf[at + 3] == 0
  }

  lemma StaleFound(buf: seq<byte>, at: nat, j: nat, l: Label)
    requires Stale(buf, at, l) && j == at + 1 && forall i :: 0 <= i < at ==> !Occurs(buf, i, l)
    ensures Find(buf, 0, j, [l]) == Some(at)
  {
    var n := AddLabel(Visit(EMPTY_NAME), CStr(l));
    assert n == Name(1, [l, [], [], []], false, false);
    assert ReadName(buf, at, at + 3, n) == Done(n, at + 4);
    assert ReadName(buf, at, at, EMPTY_NAME) == Done(n, at + 4);
    assert Accepts(buf, at, [l]);
    FindSkips(buf, 0, at, j, [l]);
  }

  lemma StaleRead(buf: seq<byte>, at: nat, j: nat, l: Label)
    requires Stale(buf, at, l) && j == at + 1
    ensures var x := Parse(buf, at, at, false); x.Some? && x.value.labels == [l] && at + 3 in x.value.bytes
    ensures var x := Parse(buf, j, j, false); x.Some? && x.value.labels == [l]
  {
    assert Parse(buf, at, at + 3, false) == Some(Parsed([], {at + 3}, true));
    assert [l] + [] == [l];
    assert buf[j] == l[0] && buf[j + 1] == l[1];
  }

  /**
   * Where the pointer does not stand alone, a name can be read back by accident: here the label holds the very
   * bytes of the pointer, stale bytes that equal it are found at the end of the packet, and the pointer is
   * written over them.
   */
  lemma PointerTakenForLabel(buf: seq<byte>, at: nat, j: nat, l: Label, h: Halt)
    requires Stale(buf, at, l) && j == at + 1 && forall i :: 0 <= i < at ==> !Occurs(buf, i, l)
    requires h == Written(buf, j, [l])
    ensures Append(buf, j, [l]).buf == buf && ReadsAs(buf, j, j, [l])
    ensures !StandsAlone(h) && !LeadsBack(h, j)
  {
    StaleFound(buf, at, j, l);
    StaleRead(buf, at, j, l);
    SpliceSame(buf, j, l);
    assert h == Halt(buf, j, [l]);
    assert l[0] in l && h.left[0] == l;
  }
}
