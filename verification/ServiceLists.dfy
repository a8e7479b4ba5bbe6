/** Lists of services as a probe carries them: who is asked for, in what order, and what a removal takes out. */
module ServiceLists {

  /**
   * A service, its kind (the service type and protocol; several services may be of one kind), and the host that
   * offers it: this device, or one it answers for.
   */
  datatype Service = Service(id: nat, kind: nat, host: nat)

  const SELF := 0

  function HostsOf(ss: seq<Service>): (hosts: set<nat>)
    ensures forall s <- ss :: s.host in hosts
    ensures ss != [] ==> hosts != {}
  {
    var hosts := set s <- ss :: s.host;
    assert ss != [] ==> ss[0] in ss && ss[0].host in hosts;
    hosts
  }

  predicate NoRepeats(ss: seq<Service>) {
    forall i, j :: 0 <= i < j < |ss| ==> ss[i] != ss[j]
  }

  lemma NoRepeatsAppend(ss: seq<Service>, ts: seq<Service>)
    requires NoRepeats(ss) && NoRepeats(ts) && forall x <- ss :: x !in ts
    ensures NoRepeats(ss + ts)
  {
    forall i, j | 0 <= i < j < |ss + ts|
      ensures (ss + ts)[i] != (ss + ts)[j]
    {
      if i < |ss| <= j {
        assert ss[i] in ss && ts[j - |ss|] in ts;
      }
    }
  }

  lemma NoRepeatsTail(ss: seq<Service>)
    requires NoRepeats(ss) && ss != []
    ensures NoRepeats(ss[1..]) && ss[0] !in ss[1..]
  {
  }

  // ---------------------------------------------------------------- adding

  /** The services of `ss` that are not in `known`, in order. */
  function Fresh(ss: seq<Service>, known: seq<Service>): seq<Service> {
    if ss == [] then [] else (if ss[0] in known then [] else [ss[0]]) + Fresh(ss[1..], known)
  }

  lemma {:induction false} FreshMembers(ss: seq<Service>, known: seq<Service>)
    ensures forall x :: x in Fresh(ss, known) <==> x in ss && x !in known
  {
    if ss != [] {
      FreshMembers(ss[1..], known);
    }
  }

  lemma {:induction false} FreshNoRepeats(ss: seq<Service>, known: seq<Service>)
    requires NoRepeats(ss)
    ensures NoRepeats(Fresh(ss, known))
  {
    if ss != [] {
      NoRepeatsTail(ss);
      FreshNoRepeats(ss[1..], known);
      FreshMembers(ss[1..], known);
      NoRepeatsAppend(if ss[0] in known then [] else [ss[0]], Fresh(ss[1..], known));
    }
  }

  // ---------------------------------------------------------------- taking out a service

  /** Without service `s`, recognized by its identity. */
  function Removed(ss: seq<Service>, s: Service): seq<Service> {
    if ss == [] then [] else (if ss[0] == s then [] else [ss[0]]) + Removed(ss[1..], s)
  }

  lemma {:induction false} RemovedMembers(ss: seq<Service>, s: Service)
    ensures forall x :: x in Removed(ss, s) <==> x in ss && x != s
    ensures s !in ss ==> Removed(ss, s) == ss
  {
    if ss != [] {
      RemovedMembers(ss[1..], s);
      assert ss == [ss[0]] + ss[1..];
    }
  }

  lemma {:induction false} RemovedNoRepeats(ss: seq<Service>, s: Service)
    requires NoRepeats(ss)
    ensures NoRepeats(Removed(ss, s))
  {
    if ss != [] {
      NoRepeatsTail(ss);
      RemovedNoRepeats(ss[1..], s);
      RemovedMembers(ss[1..], s);
      NoRepeatsAppend(if ss[0] == s then [] else [ss[0]], Removed(ss[1..], s));
    }
  }

  // ---------------------------------------------------------------- taking out a question

  /** Without the first question about a service of the given kind: all the code compares is the kind. */
  function Unasked(qs: seq<Service>, kind: nat): seq<Service> {
    if qs == [] then [] else if qs[0].kind == kind then qs[1..] else [qs[0]] + Unasked(qs[1..], kind)
  }

  /** No service of the same kind stands before `s`. */
  predicate Leads(ss: seq<Service>, s: Service) {
    forall i, j :: 0 <= i < j < |ss| && ss[j] == s ==> ss[i].kind != s.kind
  }

  lemma LeadsTail(ss: seq<Service>, s: Service)
    requires ss != [] && ss[0].kind != s.kind
    ensures Leads(ss, s) <==> Leads(ss[1..], s)
  {
    if Leads(ss, s) {
      assert forall j :: 0 <= j < |ss[1..]| ==> ss[1..][j] == ss[j + 1];
    }
    if Leads(ss[1..], s) {
      forall i, j | 0 <= i < j < |ss| && ss[j] == s
        ensures ss[i].kind != s.kind
      {
        assert ss[1..][j - 1] == s && (i > 0 ==> ss[1..][i - 1] == ss[i]);
      }
    }
  }

  /**
   * Taking out the question of a service leaves exactly the other services asked for if and only if no
   * service of the same kind stands before it. Otherwise the question stays, and another's goes.
   */
  lemma {:induction false} RightQuestionGoes(ss: seq<Service>, s: Service)
    requires NoRepeats(ss) && s in ss
    ensures Unasked(ss, s.kind) == Removed(ss, s) <==> Leads(ss, s)
    ensures (s !in Unasked(ss, s.kind) && forall x <- Removed(ss, s) :: x in Unasked(ss, s.kind)) <==> Leads(ss, s)
  {
    var h, t := ss[0], ss[1..];
    NoRepeatsTail(ss);
    RemovedMembers(ss, s);
    if h == s {
      RemovedMembers(t, s);
    } else if h.kind == s.kind {
      var j :| 0 < j < |ss| && ss[j] == s;
      assert s in t && !Leads(ss, s);
    } else {
      LeadsTail(ss, s);
      RightQuestionGoes(t, s);
      RemovedMembers(t, s);
      assert Unasked(ss, s.kind)[1..] == Unasked(t, s.kind) && Removed(ss, s)[1..] == Removed(t, s);
      KeptInFront(h, Removed(t, s), Unasked(t, s.kind));
    }
  }

  lemma KeptInFront(h: Service, rs: seq<Service>, us: seq<Service>)
    requires h !in rs
    ensures (forall x <- [h] + rs :: x in [h] + us) <==> (forall x <- rs :: x in us)
  {
    if forall x <- [h] + rs :: x in [h] + us {
      forall x | x in rs
        ensures x in us
      {
        assert x in [h] + rs;
      }
    }
  }

  /** How often each kind occurs. */
  function Kinds(ss: seq<Service>): (ks: multiset<nat>)
    ensures |ks| == |ss|
  {
    if ss == [] then multiset{} else multiset{ss[0].kind} + Kinds(ss[1..])
  }

  lemma {:induction false} KindOfMember(ss: seq<Service>, s: Service)
    requires s in ss
    ensures s.kind in Kinds(ss)
  {
    if ss[0] != s {
      KindOfMember(ss[1..], s);
    }
  }

  lemma {:induction false} UnaskedKinds(qs: seq<Service>, kind: nat)
    requires kind in Kinds(qs)
    ensures Kinds(Unasked(qs, kind)) == Kinds(qs) - multiset{kind}
  {
    if qs[0].kind != kind {
      UnaskedKinds(qs[1..], kind);
    }
  }

  lemma {:induction false} RemovedKinds(ss: seq<Service>, s: Service)
    requires NoRepeats(ss) && s in ss
    ensures Kinds(Removed(ss, s)) == Kinds(ss) - multiset{s.kind}
  {
    NoRepeatsTail(ss);
    if ss[0] == s {
      RemovedMembers(ss[1..], s);
      assert Removed(ss, s) == ss[1..];
    } else {
      RemovedKinds(ss[1..], s);
      KindOfMember(ss[1..], s);
    }
  }
}
