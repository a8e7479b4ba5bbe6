/**
 * Who keeps a name that two hosts probe for at the same time (the role of section 8.2 of RFC 6762):
 * the serialized data of both are compared, the longer one first, then byte by byte.
 */
module TieBreak {
  import opened Basics
  import opened DnsNames
  import opened NameWriter
  import opened TxtRecord

  /** The sign of `memcmp`. */
  function MemCmp(a: seq<byte>, b: seq<byte>): (r: int)
    requires |a| == |b|
    ensures -1 <= r <= 1 && (r == 0 <==> a == b)
  {
    if a == [] then 0
    else if a[0] != b[0] then (if a[0] > b[0] then 1 else -1)
    else
      assert a == [a[0]] + a[1..] && b == [b[0]] + b[1..];
      MemCmp(a[1..], b[1..])
  }

  const WE_WIN := -1
  const THEY_WIN := 1
  const TIE := 0

  /** Longer data wins, then the greater bytes. */
  function Verdict(ours: seq<byte>, theirs: seq<byte>): int {
    if |theirs| > |ours| then THEY_WIN
    else if |theirs| < |ours| then WE_WIN
    else -MemCmp(ours, theirs)
  }

  lemma {:induction false} MemCmpSwaps(a: seq<byte>, b: seq<byte>)
    requires |a| == |b|
    ensures MemCmp(b, a) == -MemCmp(a, b)
  {
    if a != [] && a[0] == b[0] {
      MemCmpSwaps(a[1..], b[1..]);
    }
  }

  lemma {:induction false} MemCmpTransitive(a: seq<byte>, b: seq<byte>, c: seq<byte>)
    requires |a| == |b| == |c| && MemCmp(a, b) == MemCmp(b, c) == 1
    ensures MemCmp(a, c) == 1
  {
    if a[0] == b[0] == c[0] {
      MemCmpTransitive(a[1..], b[1..], c[1..]);
    }
  }

  /** Winning is a strict total order on serialized data. */
  lemma VerdictIsOrder(a: seq<byte>, b: seq<byte>, c: seq<byte>)
    ensures Verdict(a, b) == -Verdict(b, a)
    ensures Verdict(a, b) == TIE <==> a == b
    ensures Verdict(a, b) == WE_WIN && Verdict(b, c) == WE_WIN ==> Verdict(a, c) == WE_WIN
  {
    if |a| == |b| {
      MemCmpSwaps(a, b);
    }
    if |a| == |b| == |c| && Verdict(a, b) == WE_WIN && Verdict(b, c) == WE_WIN {
      MemCmpTransitive(a, b, c);
    }
  }

  /** At the first place where the two differ, `a` has the greater byte. */
  ghost predicate Greater(a: seq<byte>, b: seq<byte>) {
    |a| == |b| && exists k :: 0 <= k < |a| && a[..k] == b[..k] && a[k] > b[k]
  }

  lemma {:induction false} MemCmpFirst(a: seq<byte>, b: seq<byte>, k: nat)
    requires |a| == |b| && k < |a| && a[..k] == b[..k] && a[k] != b[k]
    ensures MemCmp(a, b) == if a[k] > b[k] then 1 else -1
  {
    if k > 0 {
      assert a[0] == a[..k][0] == b[..k][0] == b[0];
      assert a[1..][..k - 1] == a[..k][1..] && b[1..][..k - 1] == b[..k][1..];
      MemCmpFirst(a[1..], b[1..], k - 1);
    }
  }

  lemma {:induction false} FirstDifference(a: seq<byte>, b: seq<byte>) returns (k: nat)
    requires |a| == |b| && a != b
    ensures k < |a| && a[..k] == b[..k] && a[k] != b[k]
  {
    if a[0] != b[0] {
      return 0;
    }
    assert a == [a[0]] + a[1..] && b == [b[0]] + b[1..];
    var j := FirstDifference(a[1..], b[1..]);
    k := j + 1;
    assert a[..k] == [a[0]] + a[1..][..j] && b[..k] == [b[0]] + b[1..][..j];
  }

  /** Which side is favoured: the longer data win, and of equally long data those greater where they first differ. */
  lemma LongerOrGreaterWins(ours: seq<byte>, theirs: seq<byte>)
    ensures Verdict(ours, theirs) == WE_WIN <==> |ours| > |theirs| || Greater(ours, theirs)
    ensures Verdict(ours, theirs) == THEY_WIN <==> |theirs| > |ours| || Greater(theirs, ours)
  {
    if |ours| == |theirs| && ours != theirs {
      var k := FirstDifference(ours, theirs);
      MemCmpFirst(ours, theirs, k);
      if Greater(ours, theirs) {
        var j :| 0 <= j < |ours| && ours[..j] == theirs[..j] && ours[j] > theirs[j];
        MemCmpFirst(ours, theirs, j);
      }
      if Greater(theirs, ours) {
        var j :| 0 <= j < |theirs| && theirs[..j] == ours[..j] && theirs[j] > ours[j];
        MemCmpFirst(ours, theirs, j);
      }
    }
  }

  // ---------------------------------------------------------------- TXT records

  /** `check_txt_collision`. */
  function TxtVerdict(ours: seq<Item>, data: seq<byte>): int {
    if |data| <= 1 && ours != [] then WE_WIN
    else if |data| > 1 && ours == [] then THEY_WIN
    else if |data| <= 1 then TIE
    else Verdict(Entries(ours), data)
  }

  /** The entries that are written: none that would reach the packet size. */
  function Fitted(ts: seq<Item>, done: seq<byte>): seq<byte>
    decreases |ts|
  {
    if ts == [] then done
    else Fitted(ts[1..], if |done| + |Entry(ts[0])| >= MAX_PACKET_SIZE then done else done + Entry(ts[0]))
  }

  lemma {:induction false} FittedLength(ts: seq<Item>, done: seq<byte>)
    ensures |Fitted(ts, done)| <= |done| + |Entries(ts)|
    ensures |done| < MAX_PACKET_SIZE ==> |Fitted(ts, done)| < MAX_PACKET_SIZE
    ensures |done| + |Entries(ts)| < MAX_PACKET_SIZE ==> Fitted(ts, done) == done + Entries(ts)
    decreases |ts|
  {
    if ts != [] {
      var next := if |done| + |Entry(ts[0])| >= MAX_PACKET_SIZE then done else done + Entry(ts[0]);
      FittedLength(ts[1..], next);
      assert done + Entry(ts[0]) + Entries(ts[1..]) == done + Entries(ts);
    }
  }

  /** The array of our data as it is compared: behind the entries written it holds what it held before. */
  function Written(ts: seq<Item>, scratch: seq<byte>): (r: seq<byte>)
    requires |scratch| == |Entries(ts)|
    ensures |r| == |scratch|
  {
    FittedLength(ts, []);
    Splice(scratch, 0, Fitted(ts, []))
  }

  /** `check_txt_collision`, with the array on the stack holding `scratch`. */
  function TxtVerdictOver(ours: seq<Item>, data: seq<byte>, scratch: seq<byte>): int
    requires |scratch| == |data|
  {
    if |data| > 1 && ours != [] && |data| == |Entries(ours)| then -MemCmp(Written(ours, scratch), data)
    else TxtVerdict(ours, data)
  }

  /** Below the packet size the array is written in full. */
  lemma SameBelowPacketSize(ours: seq<Item>, data: seq<byte>, scratch: seq<byte>)
    requires |scratch| == |data|
    ensures |data| < MAX_PACKET_SIZE ==> TxtVerdictOver(ours, data, scratch) == TxtVerdict(ours, data)
  {
    FittedLength(ours, []);
    if |data| == |Entries(ours)| && |data| < MAX_PACKET_SIZE {
      assert Fitted(ours, []) == [] + Entries(ours) == Entries(ours);
      assert Written(ours, scratch) == Entries(ours);
    }
  }

  lemma {:induction false} MemCmpDecided(a: seq<byte>, b: seq<byte>, k: nat)
    requires |a| == |b| && k <= |a|
    ensures MemCmp(a[..k], b[..k]) != 0 ==> MemCmp(a, b) == MemCmp(a[..k], b[..k])
  {
    if k > 0 && a[0] == b[0] {
      assert a[..k][1..] == a[1..][..k - 1] && b[..k][1..] == b[1..][..k - 1];
      MemCmpDecided(a[1..], b[1..], k - 1);
    }
  }

  /** Our data are as long as theirs and reach the packet size, and what is written of them begins theirs. */
  predicate LeftToScratch(ours: seq<Item>, data: seq<byte>) {
    |data| == |Entries(ours)| >= MAX_PACKET_SIZE && Fitted(ours, []) <= data
  }

  /** The verdict depends on bytes that were never written exactly in that case. */
  lemma DecidedExactly(ours: seq<Item>, data: seq<byte>)
    ensures (forall s: seq<byte>, t: seq<byte> :: |s| == |t| == |data| ==>
               TxtVerdictOver(ours, data, s) == TxtVerdictOver(ours, data, t))
            <==> !LeftToScratch(ours, data)
  {
    FittedLength(ours, []);
    var k := |Fitted(ours, [])|;
    if LeftToScratch(ours, data) {
      var other := data[k := if data[k] == 0 then 1 else 0];
      assert Written(ours, data) == data;
      assert Written(ours, other)[k] != data[k];
      assert TxtVerdictOver(ours, data, data) != TxtVerdictOver(ours, data, other);
    } else {
      forall s: seq<byte>, t: seq<byte> | |s| == |t| == |data|
        ensures TxtVerdictOver(ours, data, s) == TxtVerdictOver(ours, data, t)
      {
        if |data| == |Entries(ours)| {
          Determined(ours, data, s, t, k);
        }
      }
    }
  }

  lemma Determined(ours: seq<Item>, data: seq<byte>, s: seq<byte>, t: seq<byte>, k: nat)
    requires |s| == |t| == |data| == |Entries(ours)| && k == |Fitted(ours, [])| && !LeftToScratch(ours, data)
    ensures TxtVerdictOver(ours, data, s) == TxtVerdictOver(ours, data, t)
  {
    FittedLength(ours, []);
    if |data| < MAX_PACKET_SIZE {
      SameBelowPacketSize(ours, data, s);
      SameBelowPacketSize(ours, data, t);
    } else {
      var a, b := Written(ours, s), Written(ours, t);
      assert a[..k] == Fitted(ours, []) == b[..k];
      assert data == data[..k] + data[k..];
      MemCmpDecided(a, data, k);
      MemCmpDecided(b, data, k);
    }
  }

  lemma {:induction false} EntriesLength(ts: seq<Item>)
    ensures |Entries(ts)| >= |ts|
    ensures |Entries(ts)| <= 1 <==> ts == [] || (|ts| == 1 && Body(ts[0]) == [])
  {
    if ts != [] {
      EntriesLength(ts[1..]);
    }
  }

  /** The one set of items whose data look like those of no items: a single item without key and value. */
  predicate LooksEmpty(ts: seq<Item>) {
    ts == [] || (|ts| == 1 && Body(ts[0]) == [])
  }

  /**
   * Two hosts that look at each other's TXT data reach opposite verdicts, except when the data of both are
   * a single zero byte and one of them has an item all the same: then both may believe to have won.
   */
  lemma TxtVerdictsOpposite(a: seq<Item>, b: seq<Item>)
    ensures TxtVerdict(a, TxtData(b)) == -TxtVerdict(b, TxtData(a))
            <==> !(LooksEmpty(a) && LooksEmpty(b) && (a != [] || b != []))
  {
    EntriesLength(a);
    EntriesLength(b);
    VerdictIsOrder(Entries(a), Entries(b), []);
  }

  /** With non-empty keys a tie means identical data, and winning is transitive. */
  lemma TxtVerdictIsOrder(a: seq<Item>, b: seq<Item>, c: seq<Item>)
    requires forall t <- a + b + c :: t.key != []
    ensures TxtVerdict(a, TxtData(b)) == TIE <==> TxtData(a) == TxtData(b)
    ensures TxtVerdict(a, TxtData(b)) == WE_WIN && TxtVerdict(b, TxtData(c)) == WE_WIN ==>
            TxtVerdict(a, TxtData(c)) == WE_WIN
  {
    HasKeys(a, a + b + c);
    HasKeys(b, a + b + c);
    HasKeys(c, a + b + c);
    VerdictIsOrder(Entries(a), Entries(b), Entries(c));
  }

  /** A side without items loses to one that has some; else their data decide, and equal data are a tie. */
  lemma ItemsDecide(ours: seq<Item>, data: seq<byte>)
    ensures TxtVerdict(ours, data) == WE_WIN <==>
              ours != [] && (|data| <= 1 || |Entries(ours)| > |data| || Greater(Entries(ours), data))
    ensures TxtVerdict(ours, data) == THEY_WIN <==>
              |data| > 1 && (ours == [] || |data| > |Entries(ours)| || Greater(data, Entries(ours)))
  {
    LongerOrGreaterWins(Entries(ours), data);
  }

  lemma HasKeys(ts: seq<Item>, all: seq<Item>)
    requires forall t <- all :: t.key != []
    requires forall t <- ts :: t in all
    ensures ts == [] || |Entries(ts)| >= 2
  {
    EntriesLength(ts);
    if |ts| == 1 {
      assert ts[0] in ts;
    }
  }

  // ---------------------------------------------------------------- SRV records

  type u16 = x: int | 0 <= x < 0x1_0000

  datatype Srv = Srv(priority: u16, weight: u16, port: u16, host: seq<byte>)

  function Word(x: u16): (r: seq<byte>)
    ensures |r| == 2
  {
    [x / 256, x % 256]
  }

  function SrvData(s: Srv, domain: seq<byte>): (r: seq<byte>)
    ensures |r| == 9 + |s.host| + |domain|
  {
    Word(s.priority) + Word(s.weight) + Word(s.port) + [|s.host| % 256] + s.host + [|domain| % 256] + domain + [0]
  }

  /** `check_srv_collision`: without a host name of our own there is nothing to defend. */
  function SrvVerdict(ours: Srv, theirs: Srv, domain: seq<byte>): int {
    if ours.host == [] then TIE
    else Verdict(SrvData(ours, LOCAL), SrvData(theirs, domain))
  }

  lemma WordInjective(x: u16, y: u16)
    ensures Word(x) == Word(y) ==> x == y
  {
    if Word(x) == Word(y) {
      assert Word(x)[0] == Word(y)[0] && Word(x)[1] == Word(y)[1];
    }
  }

  /** Different records never serialize to the same bytes. */
  lemma SrvDataInjective(a: Srv, b: Srv)
    ensures SrvData(a, LOCAL) == SrvData(b, LOCAL) ==> a == b
  {
    var x, y := SrvData(a, LOCAL), SrvData(b, LOCAL);
    if x == y {
      assert x[0..2] == Word(a.priority) && y[0..2] == Word(b.priority);
      assert x[2..4] == Word(a.weight) && y[2..4] == Word(b.weight);
      assert x[4..6] == Word(a.port) && y[4..6] == Word(b.port);
      assert x[7..7 + |a.host|] == a.host && y[7..7 + |b.host|] == b.host;
      WordInjective(a.priority, b.priority);
      WordInjective(a.weight, b.weight);
      WordInjective(a.port, b.port);
    }
  }

  lemma GreaterAt(a: seq<byte>, b: seq<byte>, k: nat)
    requires |a| == |b| && k < |a| && (forall i :: 0 <= i < k ==> a[i] == b[i]) && a[k] > b[k]
    ensures Verdict(a, b) == WE_WIN
  {
    assert a[..k] == b[..k];
    MemCmpFirst(a, b, k);
  }

  lemma GreaterWord(x: u16, y: u16)
    requires x > y
    ensures Word(x)[0] > Word(y)[0] || (Word(x)[0] == Word(y)[0] && Word(x)[1] > Word(y)[1])
  {
  }

  /**
   * Between named hosts of equally long names the greater priority wins, then the greater weight, then the greater
   * port; otherwise the longer name wins.
   */
  lemma SrvFieldsDecide(a: Srv, b: Srv)
    requires a.host != []
    ensures |a.host| > |b.host| ==> SrvVerdict(a, b, LOCAL) == WE_WIN
    ensures |a.host| < |b.host| ==> SrvVerdict(a, b, LOCAL) == THEY_WIN
    ensures |a.host| == |b.host| && a.priority > b.priority ==> SrvVerdict(a, b, LOCAL) == WE_WIN
    ensures |a.host| == |b.host| && a.priority == b.priority && a.weight > b.weight ==>
              SrvVerdict(a, b, LOCAL) == WE_WIN
    ensures |a.host| == |b.host| && a.priority == b.priority && a.weight == b.weight && a.port > b.port ==>
              SrvVerdict(a, b, LOCAL) == WE_WIN
  {
    if |a.host| == |b.host| {
      if a.priority > b.priority {
        GreaterField(a, b, a.priority, b.priority, 0);
      } else if a.priority == b.priority && a.weight > b.weight {
        GreaterField(a, b, a.weight, b.weight, 2);
      } else if a.priority == b.priority && a.weight == b.weight && a.port > b.port {
        GreaterField(a, b, a.port, b.port, 4);
      }
    }
  }

  lemma GreaterField(a: Srv, b: Srv, x: u16, y: u16, at: nat)
    requires |a.host| == |b.host| && x > y && at <= 4
    requires SrvData(a, LOCAL)[..at] == SrvData(b, LOCAL)[..at]
    requires SrvData(a, LOCAL)[at..at + 2] == Word(x) && SrvData(b, LOCAL)[at..at + 2] == Word(y)
    ensures Verdict(SrvData(a, LOCAL), SrvData(b, LOCAL)) == WE_WIN
  {
    var p, q := SrvData(a, LOCAL), SrvData(b, LOCAL);
    GreaterWord(x, y);
    assert p[at] == Word(x)[0] && p[at + 1] == Word(x)[1] && q[at] == Word(y)[0] && q[at + 1] == Word(y)[1];
    assert forall i :: 0 <= i < at ==> p[..at][i] == q[..at][i];
    GreaterAt(p, q, if p[at] > q[at] then at else at + 1);
  }

  /** In the domain `local`, both verdicts are opposite exactly when both hosts have a name, or neither has. */
  lemma SrvVerdictsOpposite(a: Srv, b: Srv)
    ensures SrvVerdict(a, b, LOCAL) == -SrvVerdict(b, a, LOCAL) <==> (a.host == [] <==> b.host == [])
  {
    VerdictIsOrder(SrvData(a, LOCAL), SrvData(b, LOCAL), []);
  }

  /** Between named hosts a tie means the same record, and winning is transitive. */
  lemma SrvVerdictIsOrder(a: Srv, b: Srv, c: Srv)
    requires a.host != [] && b.host != [] && c.host != []
    ensures SrvVerdict(a, b, LOCAL) == TIE <==> a == b
    ensures SrvVerdict(a, b, LOCAL) == WE_WIN && SrvVerdict(b, c, LOCAL) == WE_WIN ==> SrvVerdict(a, c, LOCAL) == WE_WIN
  {
    SrvDataInjective(a, b);
    VerdictIsOrder(SrvData(a, LOCAL), SrvData(b, LOCAL), SrvData(c, LOCAL));
  }

  // ---------------------------------------------------------------- on memory

  method MemCmpBytes(a: array<byte>, b: seq<byte>) returns (r: int)
    requires a.Length == |b|
    ensures r == MemCmp(a[..], b)
  {
    var i := 0;
    while i < a.Length
      invariant i <= a.Length && MemCmp(a[..], b) == MemCmp(a[i..], b[i..])
    {
      if a[i] != b[i] {
        return if a[i] > b[i] then 1 else -1;
      }
      assert a[i..][1..] == a[i + 1..] && b[i..][1..] == b[i + 1..];
      i := i + 1;
    }
    r := 0;
  }

  /** `check_txt_collision`; `scratch` is what the array on the stack holds before it is written. */
  method CheckTxtCollision(txt: seq<Item>, data: seq<byte>) returns (verdict: int, ghost scratch: seq<byte>)
    ensures |scratch| == |data| && verdict == TxtVerdictOver(txt, data, scratch)
    ensures |data| < MAX_PACKET_SIZE ==> verdict == TxtVerdict(txt, data)
  {
    scratch := data;
    SameBelowPacketSize(txt, data, scratch);
    if |data| <= 1 && txt != [] {
      return WE_WIN, scratch;
    } else if |data| > 1 && txt == [] {
      return THEY_WIN, scratch;
    } else if |data| <= 1 && txt == [] {
      return TIE, scratch;
    }
    var dataLen := TxtLength(txt);
    if |data| > dataLen {
      return THEY_WIN, scratch;
    } else if |data| < dataLen {
      return WE_WIN, scratch;
    }
    var ours := new byte[|data|];
    scratch := ours[..];
    Serialize(txt, ours);
    SameBelowPacketSize(txt, data, scratch);
    var ret := MemCmpBytes(ours, data);
    return if ret > 0 then WE_WIN else if ret < 0 then THEY_WIN else TIE, scratch;
  }

  method TxtLength(txt: seq<Item>) returns (dataLen: nat)
    ensures dataLen == |Entries(txt)|
  {
    dataLen := 0;
    for i := 0 to |txt|
      invariant dataLen == |Entries(txt[..i])|
    {
      EntriesSnoc(txt, i);
      dataLen := dataLen + 1 + |txt[i].key| + (if txt[i].value.Some? then |txt[i].value.value| + 1 else 0);
    }
    assert txt[..|txt|] == txt;
  }

  /** Entry by entry into a buffer as long as the data: an entry beyond the packet size leaves it as it is. */
  method Serialize(txt: seq<Item>, ours: array<byte>)
    requires ours.Length == |Entries(txt)|
    modifies ours
    ensures ours[..] == Written(txt, old(ours[..]))
  {
    ghost var before := ours[..];
    var index := 0;
    FittedLength(txt, []);
    assert ours[..] == Splice(before, 0, []);
    ghost var done := [];
    for i := 0 to |txt|
      invariant index == |done| <= |Entries(txt[..i])| <= ours.Length && ours[..] == Splice(before, 0, done)
      invariant Fitted(txt[i..], done) == Fitted(txt, [])
    {
      EntriesSnoc(txt, i);
      assert txt[i..][0] == txt[i] && txt[i..][1..] == txt[i + 1..];
      ghost var mid := ours[..];
      var l := AppendOneTxtRecordEntry(ours, index, Some(txt[i]));
      if l > 0 {
        SpliceTwice(before, 0, done, mid, index, Entry(txt[i]), done + Entry(txt[i]));
        done := done + Entry(txt[i]);
        index := index + l;
      }
    }
    assert txt[|txt|..] == [];
  }

  method AppendBytes(buf: array<byte>, index: nat, bytes: seq<byte>, ghost before: seq<byte>, ghost done: seq<byte>)
    returns (next: nat)
    requires |before| == buf.Length && index == |done| && index + |bytes| <= buf.Length
             && buf[..] == Splice(before, 0, done)
    modifies buf
    ensures next == index + |bytes| && buf[..] == Splice(before, 0, done + bytes)
  {
    ghost var mid := buf[..];
    Copy(buf, index, bytes);
    SpliceTwice(before, 0, done, mid, index, bytes, done + bytes);
    next := index + |bytes|;
  }

  method SerializeSrv(s: Srv, domain: seq<byte>) returns (buf: array<byte>)
    ensures fresh(buf) && buf[..] == SrvData(s, domain)
  {
    buf := new byte[9 + |s.host| + |domain|];
    ghost var before, done: seq<byte> := buf[..], [];
    var index := AppendBytes(buf, 0, Word(s.priority), before, done);
    done := done + Word(s.priority);
    index := AppendBytes(buf, index, Word(s.weight), before, done);
    done := done + Word(s.weight);
    index := AppendBytes(buf, index, Word(s.port), before, done);
    done := done + Word(s.port);
    index := AppendBytes(buf, index, [|s.host| % 256], before, done);
    done := done + [|s.host| % 256];
    index := AppendBytes(buf, index, s.host, before, done);
    done := done + s.host;
    index := AppendBytes(buf, index, [|domain| % 256], before, done);
    done := done + [|domain| % 256];
    index := AppendBytes(buf, index, domain, before, done);
    done := done + domain;
    index := AppendBytes(buf, index, [0], before, done);
    done := done + [0];
    assert done == SrvData(s, domain);
  }

  method CheckSrvCollision(ours: Srv, theirs: Srv, domain: seq<byte>) returns (verdict: int)
    ensures verdict == SrvVerdict(ours, theirs, domain)
  {
    if |ours.host| == 0 {
      return TIE;
    }
    var ourLen, theirLen := 14 + |ours.host|, 9 + |theirs.host| + |domain|;
    if theirLen > ourLen {
      return THEY_WIN;
    } else if theirLen < ourLen {
      return WE_WIN;
    }
    var ourData := SerializeSrv(ours, LOCAL);
    var theirData := SerializeSrv(theirs, domain);
    var ret := MemCmpBytes(ourData, theirData[..]);
    return if ret > 0 then WE_WIN else if ret < 0 then THEY_WIN else TIE;
  }
}
