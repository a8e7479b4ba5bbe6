/**
 * A whole outgoing packet: names, record data, and length fields patched in later, in any
 * order. Every name is read back by the receiving side, in full and in the right fields.
 */
module PacketNames {
  import opened Basics
  import opened DnsNames
  import opened NameFields
  import opened NameReader
  import opened NameWriter
  import opened NameRoundTrip

  datatype Piece =
    | NamePiece(labels: seq<Label>)
    | DataPiece(bytes: seq<byte>)
    | PatchPiece(at: nat, bytes: seq<byte>)

  /**
   * The packet so far, in a buffer that may hold anything past `index`: the label starts and the
   * bytes that encode names, and each name with its offset.
   */
  datatype Packet = Packet(buf: seq<byte>, index: nat, known: set<nat>, foot: set<nat>, names: seq<(nat, seq<Label>)>)

  predicate SizeOk(p: Packet) {
    p.index <= |p.buf| <= 0x4000
  }

  predicate Fits(p: Packet, x: Piece) {
    match x
    case NamePiece(labels) => LabelsOk(labels)
    case DataPiece(bytes) => p.index + |bytes| <= |p.buf|
    case PatchPiece(at, bytes) => at + |bytes| <= p.index
  }

  function Place(p: Packet, x: Piece): (p': Packet)
    requires SizeOk(p) && Fits(p, x)
    ensures SizeOk(p') && |p'.buf| == |p.buf|
  {
    match x
    case NamePiece(labels) =>
      var r := Append(p.buf, p.index, labels);
      var foot := p.foot + Leans(p.buf, p.index, labels) + Span(p.index, p.index + r.written);
      Packet(r.buf, p.index + r.written,
             p.known + (set at <- r.starts | Decodes(r.buf, at, foot) && PlainName(LabelsAt(r.buf, at))),
             foot, p.names + [(p.index, labels)])
    case DataPiece(bytes) => p.(buf := Splice(p.buf, p.index, bytes), index := p.index + |bytes|)
    case PatchPiece(at, bytes) => p.(buf := Splice(p.buf, at, bytes))
  }

  /** The hypotheses: room for the name uncompressed, a search that can be trusted, and patches that spare names. */
  ghost predicate Allowed(p: Packet, x: Piece)
    requires SizeOk(p)
  {
    Fits(p, x) &&
    match x
    case NamePiece(labels) =>
      p.index + WireLen(labels) <= |p.buf| && Trusted(p.buf, p.index, p.index, labels)
    case DataPiece(_) => true
    case PatchPiece(at, bytes) => forall i :: at <= i < at + |bytes| ==> i !in p.foot
  }

  ghost predicate AllAllowed(p: Packet, xs: seq<Piece>)
    requires SizeOk(p)
    decreases |xs|
  {
    xs == [] || (Allowed(p, xs[0]) && AllAllowed(Place(p, xs[0]), xs[1..]))
  }

  function Assemble(p: Packet, xs: seq<Piece>): (p': Packet)
    requires SizeOk(p)
    ensures SizeOk(p')
    decreases |xs|
  {
    if xs == [] || !Fits(p, xs[0]) then p else Assemble(Place(p, xs[0]), xs[1..])
  }

  /** The name stands at `at`, encoded within `foot`, up to ASCII case. */
  predicate Stands(buf: seq<byte>, at: nat, foot: set<nat>, labels: seq<Label>) {
    Decodes(buf, at, foot) && AllSame(LabelsAt(buf, at), labels)
  }

  predicate Sound(p: Packet) {
    && SizeOk(p) && Indexed(p.buf, p.index, p.foot, p.known)
    && forall k :: 0 <= k < |p.names| ==> Stands(p.buf, p.names[k].0, p.foot, p.names[k].1)
  }

  // ---------------------------------------------------------------- soundness is kept

  lemma StandsElsewhere(buf: seq<byte>, buf': seq<byte>, at: nat, foot: set<nat>, foot': set<nat>, labels: seq<Label>)
    requires Stands(buf, at, foot, labels) && foot <= foot'
    requires forall i <- foot :: i < |buf'| && i < |buf| && buf'[i] == buf[i]
    ensures Stands(buf', at, foot', labels)
  {
    DecodesElsewhere(buf, buf', at, foot);
  }

  /** Writing outside the bytes of names, without giving up space, disturbs no name. */
  lemma Undisturbed(p: Packet, buf: seq<byte>, index: nat)
    requires Sound(p) && |buf| == |p.buf| && p.index <= index <= |buf|
    requires forall i <- p.foot :: buf[i] == p.buf[i]
    ensures Sound(p.(buf := buf, index := index))
  {
    IndexedElsewhere(p.buf, buf, p.index, p.foot, p.known);
    forall k | 0 <= k < |p.names|
      ensures Stands(buf, p.names[k].0, p.foot, p.names[k].1)
    {
      StandsElsewhere(p.buf, buf, p.names[k].0, p.foot, p.foot, p.names[k].1);
    }
  }

  /** The bytes of earlier names stay as they are. */
  lemma EarlierNamesStay(p: Packet, labels: seq<Label>, r: Appended)
    requires Sound(p) && LabelsOk(labels) && r == Append(p.buf, p.index, labels)
    ensures forall i <- p.foot :: i < |p.buf| && r.buf[i] == p.buf[i]
  {
    forall i <- p.foot
      ensures r.buf[i] == p.buf[i]
    {
      AppendFrame(p.buf, p.index, labels, i);
    }
  }

  /** Soundness of `q`, which has one more name than `p`, at the end of `p`. */
  lemma NameSound(p: Packet, q: Packet, labels: seq<Label>, starts: set<nat>, leans: set<nat>)
    requires Sound(p) && |q.buf| == |p.buf| && p.index <= q.index <= |q.buf| && p.foot <= leans
             && forall i <- leans :: i < p.index
    requires q.foot == leans + Span(p.index, q.index) && q.names == p.names + [(p.index, labels)]
    requires Delivered(q.buf, p.index, p.index, q.index, starts, labels, leans)
    requires forall i <- p.foot :: i < |p.buf| && q.buf[i] == p.buf[i]
    requires forall at <- q.known ::
               at in p.known || (at in starts && Decodes(q.buf, at, q.foot) && PlainName(LabelsAt(q.buf, at)))
    ensures Sound(q)
  {
    forall at <- q.known
      ensures at < q.index && Decodes(q.buf, at, q.foot) && PlainName(LabelsAt(q.buf, at))
    {
      if at in p.known {
        DecodesElsewhere(p.buf, q.buf, at, p.foot);
      }
    }
    forall k | 0 <= k < |q.names|
      ensures Stands(q.buf, q.names[k].0, q.foot, q.names[k].1)
    {
      if k < |p.names| {
        assert q.names[k] == p.names[k];
        StandsElsewhere(p.buf, q.buf, p.names[k].0, p.foot, q.foot, p.names[k].1);
      }
    }
  }

  lemma NamePlaced(p: Packet, labels: seq<Label>)
    requires Sound(p) && Allowed(p, NamePiece(labels))
    ensures Sound(Place(p, NamePiece(labels)))
  {
    var leans := p.foot + Leans(p.buf, p.index, labels);
    LeansBelow(p.buf, p.index, p.index, labels);
    var r := AppendDelivers(p.buf, p.index, p.index, labels, leans);
    EarlierNamesStay(p, labels, r);
    NameSound(p, Place(p, NamePiece(labels)), labels, r.starts, leans);
  }

  lemma PiecePlaced(p: Packet, x: Piece)
    requires Sound(p) && Allowed(p, x)
    ensures Sound(Place(p, x)) && p.names <= Place(p, x).names
  {
    match x
    case NamePiece(labels) => NamePlaced(p, labels);
    case DataPiece(bytes) => Undisturbed(p, Splice(p.buf, p.index, bytes), p.index + |bytes|);
    case PatchPiece(at, bytes) => Undisturbed(p, Splice(p.buf, at, bytes), p.index);
  }

  lemma {:induction false} BuildSound(p: Packet, xs: seq<Piece>)
    requires Sound(p) && AllAllowed(p, xs)
    ensures Sound(Assemble(p, xs)) && p.names <= Assemble(p, xs).names
    decreases |xs|
  {
    if xs != [] {
      PiecePlaced(p, xs[0]);
      BuildSound(Place(p, xs[0]), xs[1..]);
    }
  }

  /** The names among the pieces, in order. */
  function NamesOf(xs: seq<Piece>): seq<seq<Label>> {
    if xs == [] then []
    else (if xs[0].NamePiece? then [xs[0].labels] else []) + NamesOf(xs[1..])
  }

  predicate AllFit(p: Packet, xs: seq<Piece>)
    requires SizeOk(p)
    decreases |xs|
  {
    xs == [] || (Fits(p, xs[0]) && AllFit(Place(p, xs[0]), xs[1..]))
  }

  lemma {:induction false} AllowedFits(p: Packet, xs: seq<Piece>)
    requires SizeOk(p) && AllAllowed(p, xs)
    ensures AllFit(p, xs)
    decreases |xs|
  {
    if xs != [] {
      AllowedFits(Place(p, xs[0]), xs[1..]);
    }
  }

  /** The packet after the first piece, as far as its list of names goes. */
  lemma FirstPlaced(p: Packet, xs: seq<Piece>)
    returns (p1: Packet, one: seq<(nat, seq<Label>)>, head: seq<seq<Label>>, tail: seq<seq<Label>>)
    requires SizeOk(p) && xs != [] && AllFit(p, xs)
    ensures SizeOk(p1) && AllFit(p1, xs[1..]) && Assemble(p1, xs[1..]) == Assemble(p, xs)
    ensures p1.names == p.names + one && tail == NamesOf(xs[1..]) && NamesOf(xs) == head + tail
    ensures |head| == |one| && forall k :: 0 <= k < |one| ==> one[k].1 == head[k]
  {
    p1, tail := Place(p, xs[0]), NamesOf(xs[1..]);
    if xs[0].NamePiece? {
      one, head := [(p.index, xs[0].labels)], [xs[0].labels];
    } else {
      one, head := [], [];
    }
  }

  lemma ListedStep(names: seq<(nat, seq<Label>)>, one: seq<(nat, seq<Label>)>, final: seq<(nat, seq<Label>)>,
                   head: seq<seq<Label>>, tail: seq<seq<Label>>)
    requires |head| == |one| && forall k :: 0 <= k < |one| ==> one[k].1 == head[k]
    requires |final| == |names + one| + |tail| && names + one <= final
    requires forall k :: 0 <= k < |tail| ==> final[|names + one| + k].1 == tail[k]
    ensures |final| == |names| + |head + tail| && names <= final
    ensures forall k :: 0 <= k < |head + tail| ==> final[|names| + k].1 == (head + tail)[k]
  {
    forall k | 0 <= k < |head + tail|
      ensures final[|names| + k].1 == (head + tail)[k]
    {
      if k < |head| {
        assert final[|names| + k] == (names + one)[|names| + k] == one[k];
      } else {
        assert final[|names + one| + (k - |head|)].1 == tail[k - |head|];
      }
    }
  }

  lemma {:induction false} EveryNameListed(p: Packet, xs: seq<Piece>, ns: seq<seq<Label>>,
                                           final: seq<(nat, seq<Label>)>)
    requires SizeOk(p) && AllFit(p, xs) && ns == NamesOf(xs) && final == Assemble(p, xs).names
    ensures |final| == |p.names| + |ns| && p.names <= final
    ensures forall k :: 0 <= k < |ns| ==> final[|p.names| + k].1 == ns[k]
    decreases |xs|
  {
    if xs != [] {
      var p1, one, head, tail := FirstPlaced(p, xs);
      EveryNameListed(p1, xs[1..], tail, final);
      ListedStep(p.names, one, final, head, tail);
    }
  }

  /**
   * The round trip: whatever stood in the buffer before, each name handed to a packet is found at
   * its offset by a decoder that sees only the bytes sent, up to ASCII case.
   */
  lemma PacketRoundTrip(stale: seq<byte>, headLen: nat, xs: seq<Piece>, k: nat)
    requires headLen <= |stale| <= 0x4000
    requires AllAllowed(Packet(stale, headLen, {}, {}, []), xs) && k < |NamesOf(xs)|
    ensures var p := Assemble(Packet(stale, headLen, {}, {}, []), xs);
            var sent := p.buf[..p.index];
            && |p.names| == |NamesOf(xs)|
            && Stands(sent, p.names[k].0, p.foot, NamesOf(xs)[k])
  {
    var p0 := Packet(stale, headLen, {}, {}, []);
    BuildSound(p0, xs);
    AllowedFits(p0, xs);
    var p := Assemble(p0, xs);
    EveryNameListed(p0, xs, NamesOf(xs), p.names);
    StandsElsewhere(p.buf, p.buf[..p.index], p.names[k].0, p.foot, p.foot, p.names[k].1);
  }

  // ---------------------------------------------------------------- the receiving side

  /** `host.local`, `_service._proto.local` and `instance._service._proto.local`. */
  predicate BuilderShape(ss: seq<Label>) {
    && PlainName(ss) && 2 <= |ss| && Same(ss[|ss| - 1], LOCAL)
    && (|ss| > 2 ==> ss[1][0] == UNDERSCORE)
  }

  function FieldsOf(ss: seq<Label>): seq<Label>
    requires 2 <= |ss| <= 4
  {
    if |ss| == 2 then [ss[0], [], [], ss[1]] else if |ss| == 3 then [[]] + ss else ss
  }

  lemma ShapeUpToCase(ls: seq<Label>, ss: seq<Label>)
    requires AllSame(ls, ss) && BuilderShape(ss) && LabelsOk(ls)
    ensures BuilderShape(ls)
  {
    PlainUpToCase(ls, ss);
    SameTransitive(ls[|ls| - 1], ss[|ss| - 1], LOCAL);
    assert Lower(ls[1][0]) == Lower(ss[1][0]);
  }

  /** Labels of a builder's shape fill the fields one by one. */
  lemma {:induction false} BuildFills(n: Name, done: seq<Label>, ls: seq<Label>)
    requires NameOk(n) && !n.invalid && n.parts == |done| >= 1 && PlainName(done + ls)
    requires forall i :: 0 <= i < 4 ==> n.fields[i] == if i < |done| then done[i] else []
    requires |done| == 1 && ls != [] ==> !ExtendsHost(n, ls[0])
    ensures forall i :: 0 <= i < |ls| ==> |ls[i]| <= MAX_LABEL
    ensures var b := Build(n, ls);
            && b.parts == |done + ls| && !b.invalid && b.sub == n.sub
            && forall i :: 0 <= i < 4 ==> b.fields[i] == if i < |done + ls| then (done + ls)[i] else []
    decreases |ls|
  {
    forall i | 0 <= i < |ls|
      ensures LabelOk(ls[i]) && !Same(ls[i], SUB)
    {
      assert (done + ls)[|done| + i] == ls[i];
    }
    if ls == [] {
      assert done + ls == done;
    } else {
      assert done + [ls[0]] + ls[1..] == done + ls;
      BuildFills(AddLabel(Visit(n), CStr(ls[0])), done + [ls[0]], ls[1..]);
    }
  }

  lemma ShapeBuilds(ls: seq<Label>)
    requires BuilderShape(ls)
    ensures forall i :: 0 <= i < |ls| ==> |ls[i]| <= MAX_LABEL
    ensures var b := Build(EMPTY_NAME, ls);
            && b.parts == |ls| && !b.invalid && !b.sub
            && forall i :: 0 <= i < 4 ==> b.fields[i] == if i < |ls| then ls[i] else []
  {
    var n := AddLabel(Visit(EMPTY_NAME), CStr(ls[0]));
    assert [ls[0]] + ls[1..] == ls;
    BuildFills(n, [ls[0]], ls[1..]);
  }

  lemma SettledFields(n: Name, ls: seq<Label>, ss: seq<Label>)
    requires NameOk(n) && BuilderShape(ls) && AllSame(ls, ss) && n.parts == |ls| && !n.invalid && !n.sub
    requires forall i :: 0 <= i < 4 ==> n.fields[i] == if i < |ls| then ls[i] else []
    ensures var r := Settle(n); !r.invalid && !r.sub && AllSame(r.fields, FieldsOf(ss))
  {
    assert Settle(n).fields[3] == ls[|ls| - 1];
  }

  /** A builder's name is parsed into its fields, valid and without the subtype mark. */
  lemma ReceivedInFields(p: seq<byte>, at: nat, foot: set<nat>, ss: seq<Label>)
    requires Stands(p, at, foot, ss) && BuilderShape(ss)
    ensures var r := ParseName(p, at);
            && r.Done? && !r.name.invalid && !r.name.sub
            && AllSame(r.name.fields, FieldsOf(ss))
  {
    var ls := LabelsAt(p, at);
    ShapeUpToCase(ls, ss);
    ParseLenient(p, at, at);
    ReadAgrees(p, at, at, EMPTY_NAME);
    ShapeBuilds(ls);
    SettledFields(Build(EMPTY_NAME, ls), ls, ss);
  }

  /** End to end: every name of a builder's shape that went into a packet comes out in its fields. */
  lemma PacketReceived(stale: seq<byte>, headLen: nat, xs: seq<Piece>, k: nat)
    requires headLen <= |stale| <= 0x4000
    requires AllAllowed(Packet(stale, headLen, {}, {}, []), xs) && k < |NamesOf(xs)| && BuilderShape(NamesOf(xs)[k])
    ensures var p := Assemble(Packet(stale, headLen, {}, {}, []), xs);
            |p.names| == |NamesOf(xs)| &&
            var r := ParseName(p.buf[..p.index], p.names[k].0);
            r.Done? && !r.name.invalid && !r.name.sub && AllSame(r.name.fields, FieldsOf(NamesOf(xs)[k]))
  {
    PacketRoundTrip(stale, headLen, xs, k);
    var p := Assemble(Packet(stale, headLen, {}, {}, []), xs);
    ReceivedInFields(p.buf[..p.index], p.names[k].0, p.foot, NamesOf(xs)[k]);
  }

  /** `x._sub._service._proto.local`: a subtype's name. */
  predicate SubtypeShape(ss: seq<Label>) {
    |ss| == 5 && LabelsOk(ss) && Same(ss[1], SUB) && BuilderShape([ss[0]] + ss[2..])
  }

  lemma SubtypeUpToCase(ls: seq<Label>, ss: seq<Label>)
    requires AllSame(ls, ss) && SubtypeShape(ss) && LabelsOk(ls)
    ensures SubtypeShape(ls) && AllSame([ls[0]] + ls[2..], [ss[0]] + ss[2..])
  {
    ShapeUpToCase([ls[0]] + ls[2..], [ss[0]] + ss[2..]);
    SameTransitive(ls[1], ss[1], SUB);
  }

  /** Of its labels all count but the second. */
  lemma SubtypeCounted(ls: seq<Label>, c: seq<Label>)
    requires SubtypeShape(ls) && c == [ls[0]] + ls[2..]
    ensures Counted(ls) == c && HostOf(c, 1) && Marks(ls[1])
  {
    assert c[0] == ls[0] && c[1] == ls[2] && c[2] == ls[3] && c[3] == ls[4];
    assert ls[..4][..3] == ls[..3] && ls[..3][..2] == ls[..2] && ls[..2][..1] == ls[..1] && ls[..1][..0] == [];
    assert Counted(ls[..1]) == [ls[0]];
    assert Counted(ls[..2]) == [ls[0]];
    assert Counted(ls[..3]) == [ls[0], ls[2]];
    assert Counted(ls[..4]) == [ls[0], ls[2], ls[3]];
  }

  /** A subtype's name comes out valid and marked, its instance, service, proto and domain in their fields. */
  lemma SubtypeReceived(stale: seq<byte>, headLen: nat, xs: seq<Piece>, k: nat)
    requires headLen <= |stale| <= 0x4000
    requires AllAllowed(Packet(stale, headLen, {}, {}, []), xs) && k < |NamesOf(xs)| && SubtypeShape(NamesOf(xs)[k])
    ensures var p, ss := Assemble(Packet(stale, headLen, {}, {}, []), xs), NamesOf(xs)[k];
            |p.names| == |NamesOf(xs)| &&
            var r := ParseName(p.buf[..p.index], p.names[k].0);
            r.Done? && !r.name.invalid && r.name.sub && AllSame(r.name.fields, [ss[0]] + ss[2..])
  {
    PacketRoundTrip(stale, headLen, xs, k);
    var p := Assemble(Packet(stale, headLen, {}, {}, []), xs);
    SubtypeInFields(p.buf[..p.index], p.names[k].0, p.foot, NamesOf(xs)[k]);
  }

  lemma MarkedDomain(ls: seq<Label>, c: seq<Label>)
    requires SubtypeShape(ls) && c == [ls[0]] + ls[2..]
    ensures (exists l <- ls :: Marks(l)) && DomainOk(c[3]) && !TooLong(ls, c, 1, true)
    ensures CountedOk(c[..1]) && Placed(Dotted(c[..1]), c[1..]) == c
  {
    assert ls[1] in ls && Marks(ls[1]);
    assert c[0] == ls[0] && c[3] == ls[4] && !Same(c[3], SUB) && c[..1] == [ls[0]];
  }

  lemma SubtypeInFields(p: seq<byte>, at: nat, foot: set<nat>, ss: seq<Label>)
    requires Stands(p, at, foot, ss) && SubtypeShape(ss)
    ensures var r := ParseName(p, at);
            r.Done? && !r.name.invalid && r.name.sub && AllSame(r.name.fields, [ss[0]] + ss[2..])
  {
    var ls := LabelsAt(p, at);
    var c := [ls[0]] + ls[2..];
    SubtypeUpToCase(ls, ss);
    SubtypeCounted(ls, c);
    MarkedDomain(ls, c);
    ParseLenient(p, at, at);
    ReadAgrees(p, at, at, EMPTY_NAME);
    ReceivedExactly(p, at, c, 1);
    assert Placed(Dotted(c[..1]), c[1..]) == c;
  }

  // ---------------------------------------------------------------- when there are no decoys

  /** A structural condition under which a name may be appended to a packet built so far. */
  lemma NoDecoyAllowed(p: Packet, labels: seq<Label>)
    requires Sound(p) && LabelsOk(labels) && p.index + WireLen(labels) <= |p.buf| && DistinctLabels(labels)
    requires NoDecoy(p.buf, p.index, labels, p.known, {})
    ensures Allowed(p, NamePiece(labels))
  {
    NoDecoyMeansTrusted(p.buf, p.index, p.index, labels, p.foot, p.known, {});
  }

  /** No byte of the packet outside known starts, and no byte of a label, equals the length of a label of the name. */
  predicate Quiet(buf: seq<byte>, index: nat, ss: seq<Label>, known: set<nat>, own: set<nat>) {
    && (forall at, k :: 0 <= at < index && at < |buf| && 0 <= k < |ss| && at !in known && at !in own ==>
          buf[at] != |ss[k]|)
    && (forall j, i, k :: 0 <= j < |ss| && 0 <= i < |ss[j]| && 0 <= k < |ss| ==> ss[j][i] != |ss[k]|)
  }

  /** Host-like labels (bytes above any label length in use) among equally quiet data leave no decoy. */
  lemma {:induction false} QuietMeansNoDecoy(buf: seq<byte>, index: nat, ss: seq<Label>, known: set<nat>, own: set<nat>)
    requires index <= |buf| && LabelsOk(ss) && Quiet(buf, index, ss, known, own)
    ensures NoDecoy(buf, index, ss, known, own)
    decreases |ss|
  {
    if ss != [] && index + |ss[0]| + 1 < |buf| {
      var wire := WireLabel(ss[0]);
      var buf', index' := Splice(buf, index, wire), index + 1 + |ss[0]|;
      forall at, k | 0 <= at < index' && 0 <= k < |ss[1..]| && at !in known && at !in own + {index}
        ensures buf'[at] != |ss[1..][k]|
      {
        assert ss[1..][k] == ss[k + 1];
        if at > index {
          assert buf'[at] == ss[0][at - index - 1];
        }
      }
      forall j, i, k | 0 <= j < |ss[1..]| && 0 <= i < |ss[1..][j]| && 0 <= k < |ss[1..]|
        ensures ss[1..][j][i] != |ss[1..][k]|
      {
        assert ss[1..][j] == ss[j + 1] && ss[1..][k] == ss[k + 1];
      }
      QuietMeansNoDecoy(buf', index', ss[1..], known, own + {index});
    }
  }

  /** Length-prefixed `h` and "local", followed by a zero byte that is not part of the packet yet. */
  predicate EndsInDecoy(buf: seq<byte>, at: nat, index: nat, h: Label) {
    && LabelOk(h) && !Same(h, SUB) && index == at + |h| + 7 && index + 1 < |buf| <= 0x4000
    && Occurs(buf, at, h) && Occurs(buf, at + 1 + |h|, LOCAL) && buf[index] == 0
  }

  /** The data of a text record does so when its last two strings are the host name and "local". */
  lemma TextEndsInDecoy(p: Packet, text: seq<byte>, h: Label)
    requires SizeOk(p) && LabelOk(h) && !Same(h, SUB) && p.index + |text| + |h| + 8 < |p.buf|
    requires p.buf[p.index + |text| + |h| + 7] == 0
    ensures var x := DataPiece(text + WireLabel(h) + WireLabel(LOCAL));
            Fits(p, x) && EndsInDecoy(Place(p, x).buf, p.index + |text|, Place(p, x).index, h)
  {
    var bytes := text + WireLabel(h) + WireLabel(LOCAL);
    var at, q := p.index + |text|, Splice(p.buf, p.index, bytes);
    assert forall i :: at <= i < at + |h| + 7 ==> q[i] == bytes[i - p.index];
    assert q[at + 1..at + 1 + |h|] == h;
    assert q[at + |h| + 2..at + |h| + 7] == LOCAL;
  }

  /** The decoder on a host name's two labels. */
  lemma HostLabels(h: Label, l: Label, n1: Name, n2: Name)
    requires LabelOk(h) && !Same(h, SUB) && l == LOCAL
    requires n1 == Name(1, [h, [], [], []], false, false) && n2 == Name(2, [h, l, [], []], false, false)
    ensures AddLabel(Visit(EMPTY_NAME), h) == n1 && AddLabel(Visit(n1), l) == n2
  {
    assert EMPTY_NAME.fields[0 := h] == n1.fields && n1.fields[1 := l] == n2.fields;
  }

  lemma DecoyRead(buf: seq<byte>, at: nat, index: nat, h: Label, l: Label)
    requires EndsInDecoy(buf, at, index, h) && l == LOCAL
    ensures ReadName(buf, at, at, EMPTY_NAME) == Done(Name(2, [h, l, [], []], false, false), index + 1)
  {
    var n1, n2 := Name(1, [h, [], [], []], false, false), Name(2, [h, l, [], []], false, false);
    HostLabels(h, l, n1, n2);
    ReadOneLabel(buf, at, at, EMPTY_NAME, n1);
    ReadOneLabel(buf, at, at + 1 + |h|, n1, n2);
  }

  lemma DecoyParse(buf: seq<byte>, at: nat, index: nat, h: Label)
    requires EndsInDecoy(buf, at, index, h)
    ensures var x := Parse(buf, at, at, false); x.Some? && index in x.value.bytes
  {
    assert Parse(buf, at, index, false) == Some(Parsed([], {index}, true));
    assert Parse(buf, at, at + 1 + |h|, false).Some? && index in Parse(buf, at, at + 1 + |h|, false).value.bytes;
  }

  /**
   * Decoys do break the round trip: after a text record that ends in the host name and "local" (in a packet
   * without a label equal to the host name before), appending the host's name, as for its address record,
   * yields a pointer that leads back to itself.
   */
  lemma DecoyBreaksRoundTrip(buf: seq<byte>, at: nat, index: nat, h: Label, own: seq<Label>, known: set<nat>)
    requires EndsInDecoy(buf, at, index, h) && at !in known && forall i :: 0 <= i < at ==> !Occurs(buf, i, h)
    requires own == [h, LOCAL]
    ensures BuilderShape(own) && Find(buf, 0, index, own) == Some(at)
    ensures !NoDecoy(buf, index, own, known, {}) && !Trusted(buf, index, index, own)
    ensures Parse(Append(buf, index, own).buf, index, index, false) == None
  {
    DecoyRead(buf, at, index, h, own[1]);
    FindSkips(buf, 0, at, index, own);
    DecoyParse(buf, at, index, h);
    assert index !in Span(0, index);
    PointsToItself(Append(buf, index, own).buf, buf, at, index, h);
  }

  lemma PointsToItself(q: seq<byte>, buf: seq<byte>, at: nat, index: nat, h: Label)
    requires EndsInDecoy(buf, at, index, h) && q == Splice(buf, index, PointerTo(at))
    ensures Parse(q, index, index, false) == None
  {
    assert q[index] == PointerTo(at)[0] && q[index + 1] == PointerTo(at)[1];
    assert Parse(q, at, index, false) == None;
    assert Parse(q, at, at + 1 + |h|, false) == None;
    assert Parse(q, at, at, false) == None;
  }

  /**
   * So do subtypes: the encoding of `x._sub.service.proto.local` is accepted as the name
   * `x.service.proto.local`, because the decoder drops `_sub` and the search does not look at the mark. When that
   * encoding is what the search finds, the name appended is read back as the subtype's.
   */
  lemma SubtypeTakenForInstance(buf: seq<byte>, at: nat, index: nat, foot: set<nat>, x: Label, ss: seq<Label>)
    requires index <= |buf| && Decodes(buf, at, foot) && Occurs(buf, at, x) && LabelsAt(buf, at) == [x, SUB] + ss
    requires |ss| == 3 && BuilderShape([x] + ss)
    ensures Accepts(buf, at, [x] + ss) && !AllSame(LabelsAt(buf, at), [x] + ss)
    ensures Find(buf, 0, index, [x] + ss) == Some(at) ==> !Trusted(buf, index, index, [x] + ss)
    ensures Find(buf, 0, index, [x] + ss) == Some(at) && index + 1 < |buf| <= 0x4000
            && (forall i <- foot :: i < index) ==>
              var q := Append(buf, index, [x] + ss).buf;
              Parse(q, index, index, false).Some? && LabelsAt(q, index) == [x, SUB] + ss
  {
    assert LabelsAt(buf, at)[1] == SUB;
    ParseLenient(buf, at, at);
    ReadAgrees(buf, at, at, EMPTY_NAME);
    SubtypeBuilds(x, ss, LabelsAt(buf, at));
    if Find(buf, 0, index, [x] + ss) == Some(at) && index + 1 < |buf| <= 0x4000 && forall i <- foot :: i < index {
      PointedTo(buf, at, index, foot, [x] + ss);
    }
  }

  /** A name that is a pointer as a whole reads as what the pointer leads to. */
  lemma PointedTo(buf: seq<byte>, at: nat, index: nat, foot: set<nat>, ss: seq<Label>)
    requires index + 1 < |buf| <= 0x4000 && LabelsOk(ss) && ss != [] && Find(buf, 0, index, ss) == Some(at)
    requires Decodes(buf, at, foot) && forall i <- foot :: i < index
    ensures var q := Append(buf, index, ss).buf;
            Parse(q, index, index, false).Some? && LabelsAt(q, index) == LabelsAt(buf, at)
  {
    var q := Splice(buf, index, PointerTo(at));
    DecodesElsewhere(buf, q, at, foot);
    assert q[index] == PointerTo(at)[0] && q[index + 1] == PointerTo(at)[1];
  }

  lemma SubtypeBuilds(x: Label, ss: seq<Label>, ls: seq<Label>)
    requires |ss| == 3 && BuilderShape([x] + ss) && ls == [x, SUB] + ss
    ensures forall i :: 0 <= i < |ls| ==> |ls[i]| <= MAX_LABEL
    ensures NameMatches(Build(EMPTY_NAME, ls), [x] + ss)
  {
    var names := [x] + ss;
    assert [ls[0]] + ls[2..] == names;
    assert ls[0] == names[0] && LabelOk(names[0]) && ls[1] == SUB && LabelOk(ls[1]);
    assert forall i :: 2 <= i < |ls| ==> ls[i] == names[i - 1];
    SubtypeCounted(ls, names);
    MarkedDomain(ls, names);
    BuildReads(ls, names, 1, Build(EMPTY_NAME, ls));
  }
}
