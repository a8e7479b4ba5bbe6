/** Renaming after a conflict: `mangle_name` counts up a decimal suffix. */
module Renaming {
  import opened Basics
  import opened DnsNames
  import opened NameWriter
  import opened TxtRecord

  const DASH: byte := 45
  const PLUS: byte := 43
  const INT_MAX := 0x7FFF_FFFF

  // ---------------------------------------------------------------- decimal numbers

  predicate IsDigit(b: byte) {
    48 <= b <= 57
  }

  predicate IsSpace(b: byte) {
    b == 32 || 9 <= b <= 13
  }

  predicate AllDigits(ds: seq<byte>) {
    forall i :: 0 <= i < |ds| ==> IsDigit(ds[i])
  }

  /** What `%d` prints of a number that is not negative. */
  function Decimal(n: nat): (ds: seq<byte>)
    ensures ds != [] && AllDigits(ds)
  {
    if n < 10 then [48 + n] else Decimal(n / 10) + [48 + n % 10]
  }

  /** What it prints of a sum that may have passed the limit by one, and so has wrapped around. */
  function Printed(n: nat): (ds: seq<byte>)
    requires n <= INT_MAX + 1
    ensures ds != [] && 0 !in ds
  {
    if n <= INT_MAX then Decimal(n) else [DASH] + Decimal(0x1_0000_0000 - n)
  }

  function Value(ds: seq<byte>): nat
    requires AllDigits(ds)
  {
    if ds == [] then 0 else 10 * Value(ds[..|ds| - 1]) + (ds[|ds| - 1] - 48)
  }

  function Pow10(k: nat): (r: nat)
    ensures r >= 1
  {
    if k == 0 then 1 else 10 * Pow10(k - 1)
  }

  lemma {:induction false} Pow10Grows(k: nat, m: nat)
    requires k <= m
    ensures Pow10(k) <= Pow10(m)
  {
    if k < m {
      Pow10Grows(k, m - 1);
    }
  }

  lemma {:induction false} ValueOfDecimal(n: nat)
    ensures Value(Decimal(n)) == n
  {
    if n >= 10 {
      ValueOfDecimal(n / 10);
      assert Decimal(n)[..|Decimal(n)| - 1] == Decimal(n / 10);
    } else {
      assert [48 + n][..0] == [];
    }
  }

  lemma {:induction false} ValueBound(ds: seq<byte>)
    requires AllDigits(ds)
    ensures Value(ds) < Pow10(|ds|)
  {
    if ds != [] {
      ValueBound(ds[..|ds| - 1]);
    }
  }

  lemma {:induction false} DecimalLength(n: nat, k: nat)
    requires k >= 1 && n < Pow10(k)
    ensures |Decimal(n)| <= k
  {
    if n >= 10 {
      assert k > 1 by { assert Pow10(1) == 10 * Pow10(0); }
      DecimalLength(n / 10, k - 1);
    }
  }

  // ---------------------------------------------------------------- parsing the suffix

  function LastDash(s: seq<byte>): (r: Option<nat>)
    ensures r.Some? ==> r.value < |s| && s[r.value] == DASH && forall i :: r.value < i < |s| ==> s[i] != DASH
    ensures r.None? ==> forall i :: 0 <= i < |s| ==> s[i] != DASH
  {
    if s == [] then None
    else if s[|s| - 1] == DASH then Some(|s| - 1)
    else LastDash(s[..|s| - 1])
  }

  function SpaceRun(s: seq<byte>): (k: nat)
    ensures k <= |s|
  {
    if s == [] || !IsSpace(s[0]) then 0 else 1 + SpaceRun(s[1..])
  }

  function DigitRun(s: seq<byte>): (k: nat)
    ensures k <= |s| && AllDigits(s[..k])
  {
    if s == [] || !IsDigit(s[0]) then 0
    else
      var k := 1 + DigitRun(s[1..]);
      assert forall i :: 1 <= i < k ==> s[i] == s[1..][..k - 1][i - 1];
      k
  }

  /** A number and where it ends; without digits, zero and the start. */
  datatype Number = Number(value: nat, end: nat)

  /** `strtol` in base ten on a string without a minus sign, where `long` has 32 bits. */
  function Strtol(s: seq<byte>): (r: Number)
    ensures r.end <= |s| && r.value <= INT_MAX
  {
    var i := SpaceRun(s);
    var j := if i < |s| && s[i] == PLUS then i + 1 else i;
    var k := DigitRun(s[j..]);
    if k == 0 then Number(0, 0) else Number(Min(Value(s[j..][..k]), INT_MAX), j + k)
  }

  /** The part of a name that is kept, the number to go behind it, and how much memory is allocated. */
  datatype Plan = Plan(base: seq<byte>, next: nat, room: nat)

  /** For a name whose last dash is at `p`, with what `strtol` found behind it. */
  function PlanWith(s: seq<byte>, p: nat, number: Number): (plan: Plan)
    requires p < |s| && number.value <= INT_MAX
    ensures plan.next <= INT_MAX + 1
  {
    if number.end < |s| - p - 1 then Plan(s, 2, |s| + 3) else Plan(s[..p], number.value + 1, |s| + 2)
  }

  function PlanFor(s: seq<byte>): (plan: Plan)
    ensures plan.next <= INT_MAX + 1
  {
    var p := LastDash(s);
    if p.None? then Plan(s, 2, |s| + 3) else PlanWith(s, p.value, Strtol(s[p.value + 1..]))
  }

  function Suffixed(base: seq<byte>, ds: seq<byte>): seq<byte> {
    base + [DASH] + ds
  }

  function Numbered(base: seq<byte>, n: nat): seq<byte>
    requires n <= INT_MAX + 1
  {
    Suffixed(base, Printed(n))
  }

  function Mangled(s: seq<byte>): seq<byte> {
    Numbered(PlanFor(s).base, PlanFor(s).next)
  }

  /** The name after `k` conflicts. */
  function Renamed(s: seq<byte>, k: nat): seq<byte> {
    if k == 0 then s else Mangled(Renamed(s, k - 1))
  }

  // ---------------------------------------------------------------- no name comes back

  lemma {:induction false} DigitRunAll(ds: seq<byte>)
    requires AllDigits(ds)
    ensures DigitRun(ds) == |ds|
  {
    if ds != [] {
      DigitRunAll(ds[1..]);
    }
  }

  lemma StrtolOfDigits(ds: seq<byte>)
    requires ds != [] && AllDigits(ds) && Value(ds) <= INT_MAX
    ensures Strtol(ds) == Number(Value(ds), |ds|)
  {
    DigitRunAll(ds);
    assert IsDigit(ds[0]) && SpaceRun(ds) == 0;
    assert ds[0..] == ds && ds[..|ds|] == ds;
  }

  /** A name with a decimal suffix is taken apart where it was put together. */
  lemma PlanForSuffixed(base: seq<byte>, ds: seq<byte>, n: nat, s: seq<byte>)
    requires ds != [] && AllDigits(ds) && Value(ds) == n <= INT_MAX && s == Suffixed(base, ds)
    ensures PlanFor(s) == Plan(base, n + 1, |s| + 2)
  {
    SuffixFound(base, ds, s);
    StrtolOfDigits(ds);
  }

  lemma SuffixFound(base: seq<byte>, ds: seq<byte>, s: seq<byte>)
    requires ds != [] && AllDigits(ds) && s == Suffixed(base, ds)
    ensures LastDash(s) == Some(|base|) && s[..|base|] == base && s[|base| + 1..] == ds
  {
    assert s[|base|] == DASH;
    assert forall i :: |base| < i < |s| ==> s[i] == ds[i - |base| - 1];
  }

  lemma NumberedCountsUp(base: seq<byte>, n: nat)
    requires n <= INT_MAX
    ensures PlanFor(Numbered(base, n)).base == base && PlanFor(Numbered(base, n)).next == n + 1
    ensures Mangled(Numbered(base, n)) == Numbered(base, n + 1)
  {
    ValueOfDecimal(n);
    PlanForSuffixed(base, Decimal(n), n, Numbered(base, n));
  }

  function Dashes(m: nat): (ds: seq<byte>)
    ensures |ds| == m && forall i :: 0 <= i < m ==> ds[i] == DASH
  {
    seq(m, _ => DASH)
  }

  /** The name with number `n`: past the limit the number stands still, and a dash is added every time. */
  function Counted(base: seq<byte>, n: nat): seq<byte> {
    if n <= INT_MAX then Numbered(base, n) else Numbered(base + Dashes(n - INT_MAX - 1), INT_MAX + 1)
  }

  /** The dash of the sign is taken for the dash in front of the number. */
  lemma WrappedGrows(base: seq<byte>)
    ensures PlanFor(Numbered(base, INT_MAX + 1)).base == base + [DASH]
    ensures Mangled(Numbered(base, INT_MAX + 1)) == Numbered(base + [DASH], INT_MAX + 1)
  {
    var ds := Decimal(INT_MAX + 1);
    var s := Numbered(base, INT_MAX + 1);
    assert s == Suffixed(base + [DASH], ds);
    ValueOfDecimal(INT_MAX + 1);
    PlanForLarge(base + [DASH], ds, s);
  }

  /** A suffix above the limit is read as the limit. */
  lemma PlanForLarge(base: seq<byte>, ds: seq<byte>, s: seq<byte>)
    requires ds != [] && AllDigits(ds) && Value(ds) >= INT_MAX && s == Suffixed(base, ds)
    ensures PlanFor(s) == Plan(base, INT_MAX + 1, |s| + 2)
  {
    SuffixFound(base, ds, s);
    DigitRunAll(ds);
    assert IsDigit(ds[0]);
    assert ds[0..] == ds && ds[..|ds|] == ds;
  }

  lemma CountedUp(base: seq<byte>, n: nat)
    ensures Mangled(Counted(base, n)) == Counted(base, n + 1)
  {
    if n < INT_MAX {
      NumberedCountsUp(base, n);
    } else if n == INT_MAX {
      NumberedCountsUp(base, n);
      assert base + Dashes(0) == base;
    } else {
      WrappedGrows(base + Dashes(n - INT_MAX - 1));
      assert base + Dashes(n - INT_MAX - 1) + [DASH] == base + Dashes(n - INT_MAX);
    }
  }

  /** From the first renaming on, the names are one base with a number that rises by one. */
  lemma {:induction false} RenamedIsCounted(s: seq<byte>, k: nat)
    requires k >= 1
    ensures Renamed(s, k) == Counted(PlanFor(s).base, PlanFor(s).next + k - 1)
  {
    if k > 1 {
      RenamedIsCounted(s, k - 1);
      CountedUp(PlanFor(s).base, PlanFor(s).next + k - 2);
    } else {
      assert Renamed(s, 0) == s;
      assert PlanFor(s).base + Dashes(0) == PlanFor(s).base;
    }
  }

  /** Below the limit of `int`. */
  lemma RenamedIsNumbered(s: seq<byte>, k: nat)
    requires k >= 1 && PlanFor(s).next + k - 1 <= INT_MAX
    ensures Renamed(s, k) == Numbered(PlanFor(s).base, PlanFor(s).next + k - 1)
  {
    RenamedIsCounted(s, k);
  }

  lemma NumberedInjective(base: seq<byte>, n: nat, m: nat)
    requires n <= INT_MAX && m <= INT_MAX
    ensures Numbered(base, n) == Numbered(base, m) ==> n == m
  {
    if Numbered(base, n) == Numbered(base, m) {
      assert Numbered(base, n)[|base| + 1..] == Decimal(n);
      assert Numbered(base, m)[|base| + 1..] == Decimal(m);
      ValueOfDecimal(n);
      ValueOfDecimal(m);
    }
  }

  /** Different numbers, different names. */
  lemma CountedInjective(base: seq<byte>, n: nat, m: nat)
    requires n < m
    ensures Counted(base, n) != Counted(base, m)
  {
    if m <= INT_MAX {
      NumberedInjective(base, n, m);
    } else if n <= INT_MAX {
      assert IsDigit(Counted(base, n)[|base| + 1]);
      var b := base + Dashes(m - INT_MAX - 1);
      assert Counted(base, m)[|base| + 1] == DASH;
    } else {
      assert |Counted(base, n)| < |Counted(base, m)|;
    }
  }

  /** The original name is none of them. */
  lemma OriginalIsOlder(s: seq<byte>, n: nat)
    requires PlanFor(s).next <= n
    ensures s != Counted(PlanFor(s).base, n)
  {
    if n <= INT_MAX {
      NumberedCountsUp(PlanFor(s).base, n);
    } else {
      WrappedGrows(PlanFor(s).base + Dashes(n - INT_MAX - 1));
    }
  }

  /** No name is ever used twice, however often it is in conflict. */
  lemma NeverTheSameName(s: seq<byte>, i: nat, j: nat)
    requires i < j
    ensures Renamed(s, i) != Renamed(s, j)
  {
    RenamedIsCounted(s, j);
    if i > 0 {
      RenamedIsCounted(s, i);
    }
    NamesDiffer(s, PlanFor(s).base, PlanFor(s).next, i, j);
  }

  lemma NamesDiffer(s: seq<byte>, base: seq<byte>, next: nat, i: nat, j: nat)
    requires i < j && base == PlanFor(s).base && next == PlanFor(s).next
    ensures (if i == 0 then s else Counted(base, next + i - 1)) != Counted(base, next + j - 1)
  {
    if i == 0 {
      OriginalIsOlder(s, next + j - 1);
    } else {
      CountedInjective(base, next + i - 1, next + j - 1);
    }
  }

  lemma CarryFits(t: seq<byte>)
    ensures |Printed(Strtol(t).value + 1)| <= |t| + 1
  {
    var i := SpaceRun(t);
    var j := if i < |t| && t[i] == PLUS then i + 1 else i;
    var ds := t[j..];
    var k := DigitRun(ds);
    if k > 0 {
      ValueBound(ds[..k]);
      PrintedLength(Min(Value(ds[..k]), INT_MAX), k);
    }
  }

  /** One more than a number of `k` digits takes at most one character more, even when it wraps around. */
  lemma PrintedLength(n: nat, k: nat)
    requires k >= 1 && n <= INT_MAX && n < Pow10(k)
    ensures |Printed(n + 1)| <= k + 1
  {
    if n < INT_MAX {
      DecimalLength(n + 1, k + 1);
    } else {
      assert Pow10(9) == 1_000_000_000 && Pow10(10) == 10_000_000_000;
      if k < 10 {
        Pow10Grows(k, 9);
      }
      DecimalLength(INT_MAX + 1, 10);
    }
  }

  /** One extra byte is enough for the carry from 9 to 10, leading zeros, missing digits and overflow included. */
  lemma FitsItsBuffer(s: seq<byte>)
    ensures |Mangled(s)| + 1 <= PlanFor(s).room
  {
    var p := LastDash(s);
    if p.None? {
      assert |Printed(2)| == 1;
    } else {
      FitsBehindDash(s, p.value, Strtol(s[p.value + 1..]));
    }
  }

  lemma FitsBehindDash(s: seq<byte>, p: nat, number: Number)
    requires p < |s| && number == Strtol(s[p + 1..])
    ensures var plan := PlanWith(s, p, number); |Numbered(plan.base, plan.next)| + 1 <= plan.room
  {
    CarryFits(s[p + 1..]);
    assert |Printed(2)| == 1;
  }

  // ---------------------------------------------------------------- on memory

  /** `strrchr(in, '-')`, as an index. */
  method FindLastDash(s: seq<byte>) returns (p: Option<nat>)
    ensures p == LastDash(s)
  {
    var i := |s|;
    assert s[..|s|] == s;
    while i > 0
      invariant 0 <= i <= |s| && LastDash(s) == LastDash(s[..i])
    {
      if s[i - 1] == DASH {
        return Some(i - 1);
      }
      assert s[..i][..i - 1] == s[..i - 1];
      i := i - 1;
    }
    p := None;
  }

  method ParseNumber(s: seq<byte>) returns (value: nat, end: nat)
    ensures Number(value, end) == Strtol(s)
  {
    var i := 0;
    while i < |s| && IsSpace(s[i])
      invariant i <= |s| && SpaceRun(s) == i + SpaceRun(s[i..])
    {
      assert s[i..][1..] == s[i + 1..];
      i := i + 1;
    }
    if i < |s| && s[i] == PLUS {
      i := i + 1;
    }
    value, end := ParseDigits(s, i);
  }

  lemma ValueStep(ds: seq<byte>, k: nat)
    requires k < |ds| && AllDigits(ds[..k]) && IsDigit(ds[k])
    ensures AllDigits(ds[..k + 1]) && Value(ds[..k + 1]) == 10 * Value(ds[..k]) + (ds[k] - 48)
  {
    assert ds[..k + 1][..k] == ds[..k];
  }

  method ParseDigits(s: seq<byte>, at: nat) returns (value: nat, end: nat)
    requires at <= |s|
    ensures var k := DigitRun(s[at..]);
            && value == (if k == 0 then 0 else Min(Value(s[at..][..k]), INT_MAX))
            && end == if k == 0 then 0 else at + k
  {
    var ds := s[at..];
    var k, v := 0, 0;
    while k < |ds| && IsDigit(ds[k])
      invariant k <= |ds| && AllDigits(ds[..k]) && v == Value(ds[..k])
      invariant DigitRun(ds) == k + DigitRun(ds[k..])
    {
      ValueStep(ds, k);
      assert ds[k..][1..] == ds[k + 1..];
      v := 10 * v + (ds[k] - 48);
      k := k + 1;
    }
    if k == 0 {
      return 0, 0;
    }
    return if v <= INT_MAX then v else INT_MAX, at + k;
  }

  /** The C string in a buffer whose first `|s|` bytes are `s` and whose next byte is NUL. */
  lemma {:induction false} CStrOf(buf: seq<byte>, s: seq<byte>)
    requires |s| < |buf| && 0 !in s && buf[|s|] == 0 && forall i :: 0 <= i < |s| ==> buf[i] == s[i]
    ensures CStr(buf) == s
  {
    if s == [] {
    } else {
      assert buf[0] == s[0] && s[0] in s;
      CStrOf(buf[1..], s[1..]);
      assert s == [s[0]] + s[1..];
    }
  }

  method MakePlan(name: seq<byte>) returns (baseLen: nat, suffix: nat, room: nat)
    ensures baseLen <= |name| && PlanFor(name) == Plan(name[..baseLen], suffix, room)
  {
    var p := FindLastDash(name);
    if p.Some? {
      var value, end := ParseNumber(name[p.value + 1..]);
      if end < |name| - p.value - 1 {
        p := None;
      } else {
        return p.value, value + 1, |name| + 2;
      }
    }
    return |name|, 2, |name| + 3;
  }

  /** `memcpy` of the old name, then `sprintf` of the dash, the number and the final NUL over its end. */
  method PrintName(ret: array<byte>, name: seq<byte>, baseLen: nat, digits: seq<byte>)
    requires 0 !in name && baseLen <= |name| < ret.Length && baseLen + |digits| + 2 <= ret.Length && 0 !in digits
    modifies ret
    ensures CStr(ret[..]) == Suffixed(name[..baseLen], digits)
  {
    ghost var out := Suffixed(name[..baseLen], digits);
    Copy(ret, 0, name);
    Copy(ret, baseLen, [DASH] + digits + [0]);
    assert forall i :: 0 <= i < baseLen ==> ret[..][i] == name[i];
    assert forall i :: 0 <= i < |out| ==> ret[..][i] == out[i];
    CStrOf(ret[..], out);
  }

  /** `mangle_name`: the new name is written into a buffer of the size the code allocates. */
  method MangleName(name: seq<byte>) returns (ret: array<byte>)
    requires 0 !in name
    ensures fresh(ret) && ret.Length == PlanFor(name).room && CStr(ret[..]) == Mangled(name)
  {
    var baseLen, suffix, room := MakePlan(name);
    FitsItsBuffer(name);
    ret := new byte[room];
    var digits := Printed(suffix);
    PrintName(ret, name, baseLen, digits);
  }
}
