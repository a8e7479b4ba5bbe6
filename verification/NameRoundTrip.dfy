/**
 * Compression round trip: names appended to a packet decode to their labels at their start
 * offsets, and go on doing so whatever is appended or patched in around them later.
 */
module NameRoundTrip {
  import opened Basics
  import opened DnsNames
  import opened NameReader
  import opened NameWriter

  function WireLen(ss: seq<Label>): nat {
    if ss == [] then 1 else 1 + |ss[0]| + WireLen(ss[1..])
  }

  predicate DistinctLabels(ss: seq<Label>) {
    forall i, j :: 0 <= i < j < |ss| ==> ss[i] != ss[j]
  }

  /** A name the decoder's four fields can hold, free of the label it treats specially. */
  predicate PlainName(ls: seq<Label>) {
    LabelsOk(ls) && 1 <= |ls| <= 4 && forall i :: 0 <= i < |ls| ==> !Same(ls[i], SUB)
  }

  /** The name at `at` decodes, and its encoding lies within `foot`. */
  predicate Decodes(buf: seq<byte>, at: nat, foot: set<nat>) {
    var r := Parse(buf, at, at, false);
    r.Some? && r.value.bytes <= foot && r.value.tight && LabelsOk(r.value.labels)
  }

  function LabelsAt(buf: seq<byte>, at: nat): seq<Label>
    requires Parse(buf, at, at, false).Some?
  {
    Parse(buf, at, at, false).value.labels
  }

  /** `known` are starts of plain names, all encoded within `foot`, which lies below `bound`. */
  predicate Indexed(buf: seq<byte>, bound: nat, foot: set<nat>, known: set<nat>) {
    && (forall i <- foot :: i < bound)
    && (forall at <- known :: at < bound && Decodes(buf, at, foot) && PlainName(LabelsAt(buf, at)))
  }

  /**
   * The search, if it finds anything for the name or its tail, finds a place before this name (which began
   * at `seg`) where a plain name is encoded entirely in bytes before this name.
   */
  predicate Trusted(buf: seq<byte>, seg: nat, index: nat, ss: seq<Label>)
    requires index <= |buf| && LabelsOk(ss)
    decreases |ss|
  {
    ss == [] ||
    var found := Find(buf, 0, index, ss);
    if found.Some? then
      found.value < seg && Decodes(buf, found.value, Span(0, seg)) && PlainName(LabelsAt(buf, found.value))
    else index + |ss[0]| + 1 < |buf| ==>
      Trusted(Splice(buf, index, WireLabel(ss[0])), seg, index + 1 + |ss[0]|, ss[1..])
  }

  /** The bytes that encode what the search finds: the new name leans on them. */
  function Leans(buf: seq<byte>, index: nat, ss: seq<Label>): set<nat>
    requires index <= |buf| && LabelsOk(ss)
    decreases |ss|
  {
    if ss == [] then {}
    else
      var found := Find(buf, 0, index, ss);
      if found.Some? then
        var x := Parse(buf, found.value, found.value, false);
        if x.Some? then x.value.bytes else {}
      else if index + |ss[0]| + 1 < |buf| then
        Leans(Splice(buf, index, WireLabel(ss[0])), index + 1 + |ss[0]|, ss[1..])
      else {}
  }

  /**
   * Wherever a length-prefixed label of the name stands in the packet by the time it is searched for,
   * a label really was written there: at a start in `known`, or earlier in this very name (`own`).
   */
  ghost predicate NoDecoy(buf: seq<byte>, index: nat, ss: seq<Label>, known: set<nat>, own: set<nat>)
    requires index <= |buf| && LabelsOk(ss)
    decreases |ss|
  {
    ss == [] ||
    (&& (forall at: nat :: at < index && Occurs(buf, at, ss[0]) ==> at in known || at in own)
     && (Find(buf, 0, index, ss).None? && index + |ss[0]| + 1 < |buf| ==>
           NoDecoy(Splice(buf, index, WireLabel(ss[0])), index + 1 + |ss[0]|, ss[1..], known, own + {index})))
  }

  /** The labels of the unfinished name are complete, and differ from the ones still to come. */
  predicate OwnApart(buf: seq<byte>, seg: nat, index: nat, ss: seq<Label>, own: set<nat>) {
    forall at <- own :: seg <= at < index <= |buf| && at + 1 + buf[at] <= index
                        && forall k :: 0 <= k < |ss| ==> !Occurs(buf, at, ss[k])
  }

  // ---------------------------------------------------------------- equality up to case

  lemma SameSymmetric(a: Label, b: Label)
    requires Same(a, b)
    ensures Same(b, a)
  {
  }

  lemma SameTransitive(a: Label, b: Label, c: Label)
    requires Same(a, b) && Same(b, c)
    ensures Same(a, c)
  {
    forall i | 0 <= i < |a|
      ensures Lower(a[i]) == Lower(c[i])
    {
      assert Lower(a[i]) == Lower(b[i]) && Lower(b[i]) == Lower(c[i]);
    }
  }

  lemma PlainUpToCase(ls: seq<Label>, ss: seq<Label>)
    requires AllSame(ls, ss) && PlainName(ss) && LabelsOk(ls)
    ensures PlainName(ls)
  {
    forall i | 0 <= i < |ls|
      ensures !Same(ls[i], SUB)
    {
      if Same(ls[i], SUB) {
        SameSymmetric(ls[i], ss[i]);
        SameTransitive(ss[i], ls[i], SUB);
      }
    }
  }

  // ---------------------------------------------------------------- an accepted candidate is the name

  lemma {:induction false} BuildHostGrows(n: Name, ls: seq<Label>)
    requires NameOk(n) && n.parts >= 1 && forall i :: 0 <= i < |ls| ==> |ls[i]| <= MAX_LABEL
    ensures |Build(n, ls).fields[0]| >= |n.fields[0]|
    decreases |ls|
  {
    if ls != [] {
      var n' := AddLabel(Visit(n), CStr(ls[0]));
      assert |n'.fields[0]| >= |n.fields[0]|;
      BuildHostGrows(n', ls[1..]);
    }
  }

  /** Either the labels fill the fields one by one, or the host has grown beyond its first label. */
  lemma {:induction false} BuildPlain(n: Name, done: seq<Label>, ls: seq<Label>)
    requires NameOk(n) && !n.invalid && n.parts == |done| >= 1 && PlainName(done + ls)
    requires forall i :: 0 <= i < |done| ==> n.fields[i] == done[i]
    ensures forall i :: 0 <= i < |ls| ==> |ls[i]| <= MAX_LABEL
    ensures var b := Build(n, ls);
            || |b.fields[0]| > |done[0]|
            || (b.parts == |done| + |ls| && forall i :: 0 <= i < b.parts ==> b.fields[i] == (done + ls)[i])
    decreases |ls|
  {
    forall i | 0 <= i < |ls|
      ensures LabelOk(ls[i]) && !Same(ls[i], SUB)
    {
      assert (done + ls)[|done| + i] == ls[i];
    }
    if ls == [] {
      assert done + ls == done;
    } else {
      var n' := AddLabel(Visit(n), CStr(ls[0]));
      assert (done + ls)[0] == done[0];
      if ExtendsHost(n, ls[0]) {
        assert |n'.fields[0]| > |n.fields[0]|;
        BuildHostGrows(n', ls[1..]);
      } else {
        assert done + [ls[0]] + ls[1..] == done + ls;
        BuildPlain(n', done + [ls[0]], ls[1..]);
      }
    }
  }

  lemma MatchMeansSame(ls: seq<Label>, ss: seq<Label>)
    requires PlainName(ls) && ss != [] && ls[0] == ss[0]
    requires NameMatches(Build(EMPTY_NAME, ls), ss)
    ensures AllSame(ls, ss)
  {
    var n := AddLabel(Visit(EMPTY_NAME), CStr(ls[0]));
    assert n.fields[0] == ls[0] && n.parts == 1;
    assert [ls[0]] + ls[1..] == ls;
    BuildPlain(n, [ls[0]], ls[1..]);
    var b := Build(EMPTY_NAME, ls);
    assert Same(ss[0], b.fields[0]);
    forall i | 0 <= i < |ls|
      ensures Same(ls[i], ss[i])
    {
      SameSymmetric(ss[i], b.fields[i]);
    }
  }

  /** What the search accepts at a known start really is the rest of the name. */
  lemma AcceptedIsName(buf: seq<byte>, at: nat, ss: seq<Label>, foot: set<nat>)
    requires ss != [] && Accepts(buf, at, ss)
    requires Decodes(buf, at, foot) && PlainName(LabelsAt(buf, at)) && LabelsOk(ss)
    ensures AllSame(LabelsAt(buf, at), ss)
  {
    var ls := LabelsAt(buf, at);
    ParseLenient(buf, at, at);
    ReadAgrees(buf, at, at, EMPTY_NAME);
    assert ls[0] == buf[at + 1..at + 1 + |ss[0]|] == ss[0];
    MatchMeansSame(ls, ss);
  }

  // ---------------------------------------------------------------- one name

  lemma DecodesElsewhere(buf: seq<byte>, buf': seq<byte>, at: nat, foot: set<nat>)
    requires Decodes(buf, at, foot) && forall i <- foot :: i < |buf'| && i < |buf| && buf'[i] == buf[i]
    ensures Decodes(buf', at, foot) && LabelsAt(buf', at) == LabelsAt(buf, at)
  {
    ParseLocal(buf, buf', at, at, Parse(buf, at, at, false).value);
  }

  lemma IndexedElsewhere(buf: seq<byte>, buf': seq<byte>, bound: nat, foot: set<nat>, known: set<nat>)
    requires Indexed(buf, bound, foot, known)
    requires forall i <- foot :: i < |buf'| && i < |buf| && buf'[i] == buf[i]
    ensures Indexed(buf', bound, foot, known)
  {
    forall at <- known
      ensures Decodes(buf', at, foot) && LabelsAt(buf', at) == LabelsAt(buf, at)
    {
      DecodesElsewhere(buf, buf', at, foot);
    }
  }

  /**
   * The name `ss` stands in `q` at `index`, in a run of labels begun at `seg`; its encoding ends at
   * `end` and leans only on `foot`, and names start at each of `starts`.
   */
  predicate Delivered(q: seq<byte>, seg: nat, index: nat, end: nat, starts: set<nat>, ss: seq<Label>, foot: set<nat>)
    requires seg <= index
  {
    var foot' := foot + Span(index, end);
    var here := Parse(q, seg, index, false);
    && index < end <= |q| && (ss == [] ==> starts == {})
    && here.Some? && here.value.bytes <= foot' && here.value.tight
    && LabelsOk(here.value.labels) && AllSame(here.value.labels, ss)
    && (forall at <- starts :: index <= at < end && Decodes(q, at, foot'))
    && (PlainName(ss) ==> forall at <- starts :: PlainName(LabelsAt(q, at)))
  }

  predicate StandsAt(q: seq<byte>, index: nat, l: Label) {
    index + 1 + |l| <= |q| && q[index] == |l| && forall i :: 0 <= i < |l| ==> q[index + 1 + i] == l[i]
  }

  lemma LabelThenRest(q: seq<byte>, seg: nat, index: nat, l: Label)
    requires seg <= index && LabelOk(l) && StandsAt(q, index, l)
    requires Parse(q, seg, index + 1 + |l|, false).Some?
    ensures var next := index + 1 + |l|;
            var tail := Parse(q, seg, next, false).value;
            Parse(q, seg, index, false) == Some(Parsed([l] + tail.labels, Span(index, next) + tail.bytes, tail.tight))
  {
    assert q[index + 1..index + 1 + |l|] == l;
  }

  lemma SpanWithin(from: nat, from': nat, to': nat, to: nat)
    requires from <= from' && to' <= to
    ensures Span(from', to') <= Span(from, to)
  {
  }

  /** `r` is what Append returns for `ss`. */
  predicate Appends(r: Appended, seg: nat, index: nat, ss: seq<Label>, foot: set<nat>)
    requires seg <= index
  {
    Delivered(r.buf, seg, index, index + r.written, r.starts, ss, foot)
  }

  lemma LabelDelivers(rest: Appended, r: Appended, seg: nat, index: nat, ss: seq<Label>, foot: set<nat>)
    requires ss != [] && LabelsOk(ss) && seg <= index && StandsAt(r.buf, index, ss[0])
    requires Appends(rest, seg, index + 1 + |ss[0]|, ss[1..], foot)
    requires r == Appended(rest.buf, 1 + |ss[0]| + rest.written, {index} + rest.starts)
    ensures Appends(r, seg, index, ss, foot)
  {
    var q, next, end := r.buf, index + 1 + |ss[0]|, index + r.written;
    LabelThenRest(q, seg, index, ss[0]);
    ParseLaterSegment(q, seg, index, index);
    SpanWithin(index, next, end, end);
    SpanWithin(index, index, next, end);
    if PlainName(ss) {
      PlainUpToCase(LabelsAt(q, index), ss);
    }
  }

  lemma PointerDelivers(buf: seq<byte>, seg: nat, index: nat, ss: seq<Label>, foot: set<nat>) returns (r: Appended)
    requires seg <= index && index + 1 < |buf| <= 0x4000 && LabelsOk(ss) && ss != []
    requires Trusted(buf, seg, index, ss) && Find(buf, 0, index, ss).Some?
    requires Leans(buf, index, ss) <= foot && forall i <- foot :: i < index
    ensures r == Append(buf, index, ss) && Appends(r, seg, index, ss, foot)
  {
    var at := Find(buf, 0, index, ss).value;
    FindFirst(buf, 0, index, ss, at);
    assert Decodes(buf, at, foot);
    AcceptedIsName(buf, at, ss, foot);
    r := Append(buf, index, ss);
    DecodesElsewhere(buf, r.buf, at, foot);
    assert r.buf[index] == PointerTo(at)[0] && r.buf[index + 1] == PointerTo(at)[1];
  }

  /** Appending the rest of a name leaves the label just written where it is. */
  lemma BytesStay(mid: seq<byte>, next: nat, ls: seq<Label>, rest: Appended)
    requires next <= |mid| <= 0x4000 && LabelsOk(ls) && rest == Append(mid, next, ls)
    ensures |rest.buf| == |mid| && forall i :: 0 <= i < next ==> rest.buf[i] == mid[i]
  {
    forall i | 0 <= i < next
      ensures rest.buf[i] == mid[i]
    {
      AppendFrame(mid, next, ls, i);
    }
  }

  lemma LabelStands(buf: seq<byte>, index: nat, l: Label, mid: seq<byte>)
    requires LabelOk(l) && index + |l| + 1 < |buf| && mid == Splice(buf, index, WireLabel(l))
    ensures StandsAt(mid, index, l)
  {
    var wire := WireLabel(l);
    assert forall i :: 0 <= i < |l| ==> mid[index + 1 + i] == wire[1 + i] == l[i];
  }

  lemma LabelStays(buf: seq<byte>, index: nat, l: Label, ls: seq<Label>, mid: seq<byte>, rest: Appended)
    requires LabelOk(l) && LabelsOk(ls) && index + |l| + 1 < |buf| <= 0x4000
    requires mid == Splice(buf, index, WireLabel(l)) && rest == Append(mid, index + 1 + |l|, ls)
    ensures StandsAt(rest.buf, index, l)
  {
    LabelStands(buf, index, l, mid);
    BytesStay(mid, index + 1 + |l|, ls, rest);
  }

  lemma LabelAppended(buf: seq<byte>, index: nat, ss: seq<Label>, rest: Appended) returns (r: Appended)
    requires ss != [] && index + |ss[0]| + 1 < |buf| <= 0x4000 && LabelsOk(ss)
    requires Find(buf, 0, index, ss).None?
    requires rest == Append(Splice(buf, index, WireLabel(ss[0])), index + 1 + |ss[0]|, ss[1..])
    ensures r == Append(buf, index, ss)
    ensures r == Appended(rest.buf, 1 + |ss[0]| + rest.written, {index} + rest.starts) && StandsAt(r.buf, index, ss[0])
  {
    LabelStays(buf, index, ss[0], ss[1..], Splice(buf, index, WireLabel(ss[0])), rest);
    r := Append(buf, index, ss);
  }

  lemma OwnStaysApart(buf: seq<byte>, seg: nat, index: nat, ss: seq<Label>, own: set<nat>)
    requires ss != [] && seg <= index && index + |ss[0]| + 1 <= |buf| && LabelsOk(ss) && DistinctLabels(ss)
    requires OwnApart(buf, seg, index, ss, own)
    ensures OwnApart(Splice(buf, index, WireLabel(ss[0])), seg, index + 1 + |ss[0]|, ss[1..], own + {index})
  {
    var buf' := Splice(buf, index, WireLabel(ss[0]));
    forall at, k | at in own + {index} && 0 <= k < |ss[1..]|
      ensures !Occurs(buf', at, ss[1..][k])
    {
      if at == index {
        FreshLabelApart(buf, index, ss[0], ss[k + 1]);
      } else {
        assert !Occurs(buf, at, ss[k + 1]);
        OldLabelApart(buf, index, ss[0], at, ss[k + 1]);
      }
    }
  }

  lemma FreshLabelApart(buf: seq<byte>, index: nat, l: Label, l': Label)
    requires LabelOk(l) && index + 1 + |l| <= |buf| && l != l'
    ensures !Occurs(Splice(buf, index, WireLabel(l)), index, l')
  {
    assert Splice(buf, index, WireLabel(l))[index + 1..index + 1 + |l|] == l;
  }

  lemma OldLabelApart(buf: seq<byte>, index: nat, l: Label, at: nat, l': Label)
    requires LabelOk(l) && index + 1 + |l| <= |buf| && at < index && at + 1 + buf[at] <= index && !Occurs(buf, at, l')
    ensures !Occurs(Splice(buf, index, WireLabel(l)), at, l')
  {
    var buf' := Splice(buf, index, WireLabel(l));
    assert at + 1 + |l'| <= index ==> buf[at + 1..at + 1 + |l'|] == buf'[at + 1..at + 1 + |l'|];
  }

  lemma TerminatorDelivers(buf: seq<byte>, seg: nat, index: nat, foot: set<nat>) returns (r: Appended)
    requires seg <= index < |buf| <= 0x4000
    ensures r == Append(buf, index, []) && Appends(r, seg, index, [], foot)
  {
    r := Append(buf, index, []);
    assert index in Span(index, index + 1);
  }

  /** What the rest of a name needs once its first label is written. */
  lemma RestTrusted(buf: seq<byte>, seg: nat, index: nat, ss: seq<Label>, foot: set<nat>) returns (mid: seq<byte>)
    requires seg <= index && index + WireLen(ss) <= |buf| <= 0x4000 && LabelsOk(ss) && ss != []
    requires Trusted(buf, seg, index, ss) && Leans(buf, index, ss) <= foot && Find(buf, 0, index, ss).None?
    ensures LabelOk(ss[0]) && index + 1 + |ss[0]| < |buf| && mid == Splice(buf, index, WireLabel(ss[0]))
    ensures index + 1 + |ss[0]| + WireLen(ss[1..]) <= |mid| == |buf| && LabelsOk(ss[1..])
    ensures Trusted(mid, seg, index + 1 + |ss[0]|, ss[1..]) && Leans(mid, index + 1 + |ss[0]|, ss[1..]) <= foot
  {
    mid := Splice(buf, index, WireLabel(ss[0]));
  }

  /**
   * One name: wherever the search leads to a name the packet really holds, the appended name decodes to its
   * labels up to case, and so does every tail of it that it was written out for.
   */
  lemma {:induction false} AppendDelivers(buf: seq<byte>, seg: nat, index: nat, ss: seq<Label>, foot: set<nat>)
    returns (r: Appended)
    requires seg <= index && index + WireLen(ss) <= |buf| <= 0x4000 && LabelsOk(ss)
    requires Trusted(buf, seg, index, ss) && Leans(buf, index, ss) <= foot && forall i <- foot :: i < seg
    ensures r == Append(buf, index, ss) && Appends(r, seg, index, ss, foot)
    decreases |ss|
  {
    if ss == [] {
      r := TerminatorDelivers(buf, seg, index, foot);
    } else if Find(buf, 0, index, ss).Some? {
      r := PointerDelivers(buf, seg, index, ss, foot);
    } else {
      var mid := RestTrusted(buf, seg, index, ss, foot);
      var rest := AppendDelivers(mid, seg, index + 1 + |ss[0]|, ss[1..], foot);
      r := LabelAppended(buf, index, ss, rest);
      LabelDelivers(rest, r, seg, index, ss, foot);
    }
  }

  lemma FootBelow(buf: seq<byte>, at: nat, foot: set<nat>, seg: nat)
    requires Decodes(buf, at, foot) && forall i <- foot :: i < seg
    ensures Decodes(buf, at, Span(0, seg))
  {
    forall i | i in Parse(buf, at, at, false).value.bytes
      ensures i in Span(0, seg)
    {
      assert Between(0, i, seg);
    }
  }

  /**
   * A name of distinct labels can be trusted when its labels occur, behind their lengths, only where labels
   * were written: at the starts of plain names, or in the name itself.
   */
  lemma {:induction false} NoDecoyMeansTrusted(buf: seq<byte>, seg: nat, index: nat, ss: seq<Label>,
                                               foot: set<nat>, known: set<nat>, own: set<nat>)
    requires seg <= index && index + WireLen(ss) <= |buf| <= 0x4000 && LabelsOk(ss) && DistinctLabels(ss)
    requires Indexed(buf, seg, foot, known) && OwnApart(buf, seg, index, ss, own)
    requires NoDecoy(buf, index, ss, known, own)
    ensures Trusted(buf, seg, index, ss)
    decreases |ss|
  {
    if ss != [] {
      var found := Find(buf, 0, index, ss);
      if found.Some? {
        FindFirst(buf, 0, index, ss, found.value);
        assert found.value in known;
        FootBelow(buf, found.value, foot, seg);
      } else {
        var buf' := Splice(buf, index, WireLabel(ss[0]));
        IndexedElsewhere(buf, buf', seg, foot, known);
        OwnStaysApart(buf, seg, index, ss, own);
        NoDecoyMeansTrusted(buf', seg, index + 1 + |ss[0]|, ss[1..], foot, known, own + {index});
      }
    }
  }

  /** What a trusted name leans on lies before it. */
  lemma {:induction false} LeansBelow(buf: seq<byte>, seg: nat, index: nat, ss: seq<Label>)
    requires index <= |buf| && LabelsOk(ss) && Trusted(buf, seg, index, ss)
    ensures forall i <- Leans(buf, index, ss) :: i < seg
    decreases |ss|
  {
    if ss != [] {
      if Find(buf, 0, index, ss).None? && index + |ss[0]| + 1 < |buf| {
        LeansBelow(Splice(buf, index, WireLabel(ss[0])), seg, index + 1 + |ss[0]|, ss[1..]);
      }
    }
  }
}
