/**
 * What a received name comes to, said of its labels: which of them are joined to the host, which fields
 * the others go into, when the name is marked as a subtype's, and when it is marked invalid.
 */
module NameFields {
  import opened Basics
  import opened DnsNames
  import opened NameReader

  predicate CountedOk(c: seq<Label>) {
    forall i :: 0 <= i < |c| ==> |c[i]| <= MAX_LABEL && 0 !in c[i]
  }

  /** The labels that count, as C strings: `_sub` is only a mark. */
  function Counted(ls: seq<Label>): (c: seq<Label>)
    ensures |c| <= |ls|
    ensures (forall l <- ls :: |l| <= MAX_LABEL) ==> CountedOk(c)
  {
    if ls == [] then []
    else
      var s := CStr(ls[|ls| - 1]);
      assert ls[|ls| - 1] in ls && forall l <- ls[..|ls| - 1] :: l in ls;
      Counted(ls[..|ls| - 1]) + if Same(s, SUB) then [] else [s]
  }

  predicate Joins(s: Label) {
    (s == [] || s[0] != UNDERSCORE) && !Same(s, LOCAL) && !Same(s, ARPA) && !Same(s, IP6) && !Same(s, IN_ADDR)
  }

  /** The first `h` labels make up the host: the very first, and all that join it. */
  predicate HostOf(c: seq<Label>, h: nat) {
    if c == [] then h == 0
    else 1 <= h <= |c| && (forall i :: 1 <= i < h ==> Joins(c[i])) && (h < |c| ==> !Joins(c[h]))
  }

  /** A host of several labels, with dots, cut to what the field holds. */
  function Dotted(hs: seq<Label>): (r: seq<byte>)
    requires hs != [] && CountedOk(hs)
    ensures |r| < NAME_BUF_LEN && 0 !in r
  {
    if |hs| == 1 then hs[0] else Cat(Cat(Dotted(hs[..|hs| - 1]), [46]), hs[|hs| - 1])
  }

  /** A label, even a mark, or a pointer comes after the fourth part. */
  predicate TooLong(ls: seq<Label>, c: seq<Label>, h: nat, tight: bool) {
    |c| > h + 3 || (|c| == h + 3 && (!tight || (ls != [] && Same(CStr(ls[|ls| - 1]), SUB))))
  }

  function Filled(host: seq<byte>, rest: seq<Label>): seq<seq<byte>> {
    if |rest| == 0 then [host, [], [], []]
    else if |rest| == 1 then [host, rest[0], [], []]
    else if |rest| == 2 then [host, rest[0], rest[1], []]
    else [host, rest[0], rest[1], rest[2]]
  }

  /** The last label read is the last label added. */
  lemma {:induction false} BuildLast(n: Name, ls: seq<Label>)
    requires NameOk(n) && ls != [] && forall i :: 0 <= i < |ls| ==> |ls[i]| <= MAX_LABEL
    ensures Build(n, ls) == AddLabel(Visit(Build(n, ls[..|ls| - 1])), CStr(ls[|ls| - 1]))
    decreases |ls|
  {
    if |ls| > 1 {
      BuildLast(AddLabel(Visit(n), CStr(ls[0])), ls[1..]);
      assert ls[1..][..|ls| - 2] == ls[..|ls| - 1][1..];
    }
  }

  /** What has been read so far. */
  predicate Reads(b: Name, ls: seq<Label>, c: seq<Label>, h: nat)
    requires HostOf(c, h) && CountedOk(c)
  {
    if c == [] then b.parts == 0 && b.fields == EMPTY_NAME.fields && !b.invalid
    else if TooLong(ls, c, h, true) then b.parts == 4 && b.invalid
    else b.parts == |c| - h + 1 && !b.invalid && b.fields == Filled(Dotted(c[..h]), c[h..])
  }

  lemma MarkReads(b: Name, ls0: seq<Label>, c: seq<Label>, h: nat, ls: seq<Label>, s: Label)
    requires ls != [] && s == CStr(ls[|ls| - 1]) && |s| <= MAX_LABEL && Same(s, SUB)
    requires HostOf(c, h) && CountedOk(c) && NameOk(b) && Reads(b, ls0, c, h)
    ensures Reads(AddLabel(Visit(b), s), ls, c, h)
  {
    assert Lower(s[0]) == Lower(SUB[0]);
  }

  lemma FirstReads(b: Name, ls0: seq<Label>, c: seq<Label>, ls: seq<Label>, s: Label)
    requires |s| <= MAX_LABEL && 0 !in s && !Same(s, SUB) && c == [s]
    requires NameOk(b) && Reads(b, ls0, [], 0)
    ensures CountedOk(c) && Reads(AddLabel(Visit(b), s), ls, c, 1)
  {
    assert c[..1] == [s] && c[1..] == [];
  }

  lemma HostReads(b: Name, ls0: seq<Label>, c0: seq<Label>, ls: seq<Label>, c: seq<Label>, s: Label)
    requires |s| <= MAX_LABEL && 0 !in s && !Same(s, SUB) && c0 != [] && c == c0 + [s]
    requires CountedOk(c) && CountedOk(c0) && HostOf(c0, |c0|) && HostOf(c, |c|)
    requires NameOk(b) && Reads(b, ls0, c0, |c0|)
    ensures Reads(AddLabel(Visit(b), s), ls, c, |c|)
  {
    assert c[..|c|] == c && c[|c|..] == [] && c0[..|c0|] == c0 && c0[|c0|..] == [] && c[..|c| - 1] == c0;
    assert c[|c| - 1] == s && Joins(s);
  }

  lemma PartReads(b: Name, ls0: seq<Label>, c0: seq<Label>, ls: seq<Label>, c: seq<Label>, h: nat, s: Label)
    requires ls != [] && s == CStr(ls[|ls| - 1]) && |s| <= MAX_LABEL && !Same(s, SUB) && c0 != [] && c == c0 + [s]
    requires h <= |c0| && CountedOk(c) && CountedOk(c0) && HostOf(c0, h) && HostOf(c, h)
    requires NameOk(b) && Reads(b, ls0, c0, h)
    ensures Reads(AddLabel(Visit(b), s), ls, c, h)
  {
    assert c[..h] == c0[..h] && c[h..] == c0[h..] + [s];
    assert h == |c0| ==> c[h] == s;
  }

  lemma HostBefore(c0: seq<Label>, c: seq<Label>, h: nat)
    requires HostOf(c, h) && c0 <= c
    ensures HostOf(c0, if h <= |c0| then h else |c0|)
  {
  }

  lemma {:induction false} BuildReads(ls: seq<Label>, c: seq<Label>, h: nat, b: Name)
    requires forall i :: 0 <= i < |ls| ==> |ls[i]| <= MAX_LABEL
    requires c == Counted(ls) && HostOf(c, h) && b == Build(EMPTY_NAME, ls)
    ensures CountedOk(c)
    ensures Reads(b, ls, c, h)
    decreases |ls|
  {
    if ls != [] {
      var ls0, s := ls[..|ls| - 1], CStr(ls[|ls| - 1]);
      var c0 := Counted(ls0);
      var b0, h0 := Build(EMPTY_NAME, ls0), if h <= |c0| then h else |c0|;
      BuildLast(EMPTY_NAME, ls);
      HostBefore(c0, c, h);
      BuildReads(ls0, c0, h0, b0);
      if Same(s, SUB) {
        assert c == c0;
        MarkReads(b0, ls0, c, h, ls, s);
      } else if c0 == [] {
        FirstReads(b0, ls0, c, ls, s);
      } else if h == |c| {
        HostReads(b0, ls0, c0, ls, c, s);
      } else {
        PartReads(b0, ls0, c0, ls, c, h, s);
      }
    }
  }

  predicate Marks(l: Label) {
    Same(CStr(l), SUB)
  }

  lemma LabelMarks(n: Name, l: Label)
    requires NameOk(n) && |l| <= MAX_LABEL
    ensures AddLabel(Visit(n), CStr(l)).sub <==> n.sub || Marks(l)
  {
    if Marks(l) {
      assert Lower(CStr(l)[0]) == Lower(SUB[0]);
    }
  }

  /** A name is marked exactly if a label read for it is `_sub` up to case, wherever it stands. */
  lemma {:induction false} MarkedExactly(p: seq<byte>, seg: nat, pos: nat, n: Name)
    requires seg <= pos && NameOk(n) && ReadName(p, seg, pos, n).Done? && Parse(p, seg, pos, true).Some?
    ensures ReadName(p, seg, pos, n).name.sub <==>
            n.sub || exists l <- Parse(p, seg, pos, true).value.labels :: Marks(l)
    decreases seg, if pos < |p| then |p| - pos else 0
  {
    if pos < |p| && p[pos] != 0 {
      if p[pos] < 192 {
        var next := pos + 1 + p[pos];
        var l := p[pos + 1..next];
        var n1 := AddLabel(Visit(n), CStr(l));
        LabelMarks(n, l);
        MarkedExactly(p, seg, next, n1);
        assert Parse(p, seg, pos, true).value.labels == [l] + Parse(p, seg, next, true).value.labels;
      } else {
        var target := Pointer(p[pos], p[pos + 1]);
        MarkedExactly(p, target, target, Visit(n));
      }
    }
  }

  /** The fields in their places: the domain last, the host first or, of three parts, missing. */
  function Placed(host: seq<byte>, rest: seq<Label>): seq<seq<byte>> {
    if |rest| == 0 then [host, [], [], []]
    else if |rest| == 1 then [host, [], [], rest[0]]
    else if |rest| == 2 then [[], host, rest[0], rest[1]]
    else [host, rest[0], rest[1], rest[2]]
  }

  predicate DomainOk(l: Label) {
    Same(l, LOCAL) || Same(l, ARPA)
  }

  lemma SettledReads(b: Name, n: Name, ls: seq<Label>, c: seq<Label>, h: nat, tight: bool)
    requires NameOk(b) && CountedOk(c) && HostOf(c, h) && Reads(b, ls, c, h) && n == if tight then b else Visit(b)
    ensures var r, long := Settle(n), TooLong(ls, c, h, tight);
            && (c == [] ==> r.parts == 0 && !r.invalid)
            && (c != [] ==> (r.invalid <==> long || |c| == h || !DomainOk(c[|c| - 1])))
            && (c != [] && !long ==> r.parts == |c| - h + 1 && r.fields == Placed(Dotted(c[..h]), c[h..]))
  {
    if c != [] && h < |c| && !TooLong(ls, c, h, tight) {
      assert c[|c| - 1] == c[h..][|c| - h - 1];
      assert Settle(n).fields[3] == c[|c| - 1];
    }
  }

  /**
   * All that a received name says, for every packet: marked exactly if a label is `_sub`; of the labels that
   * count, `c`, the first `h` are its host; it is invalid exactly if it has a host and is too long, or is all
   * host, or ends in neither `local` nor `arpa`; and if it is not too long its parts are in their fields.
   */
  lemma ReceivedExactly(p: seq<byte>, at: nat, c: seq<Label>, h: nat)
    requires ParseName(p, at).Done? && Parse(p, at, at, true).Some?
    requires c == Counted(Parse(p, at, at, true).value.labels) && HostOf(c, h)
    ensures CountedOk(c)
    ensures var r, x := ParseName(p, at).name, Parse(p, at, at, true).value;
            && (r.sub <==> exists l <- x.labels :: Marks(l))
            && var long := TooLong(x.labels, c, h, x.tight);
            && (c == [] ==> r.parts == 0 && !r.invalid)
            && (c != [] ==> (r.invalid <==> long || |c| == h || !DomainOk(c[|c| - 1])))
            && (c != [] && !long ==> r.parts == |c| - h + 1 && r.fields == Placed(Dotted(c[..h]), c[h..]))
  {
    var x := Parse(p, at, at, true).value;
    MarkedExactly(p, at, at, EMPTY_NAME);
    ReadAgrees(p, at, at, EMPTY_NAME);
    var b := Build(EMPTY_NAME, x.labels);
    BuildReads(x.labels, c, h, b);
    SettledReads(b, if x.tight then b else Visit(b), x.labels, c, h, x.tight);
  }
}
