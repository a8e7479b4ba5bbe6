/** `json_esc`: text is escaped into a fixed buffer, cut where the buffer ends but never inside an escape. */
module JsonText {
  import opened Basics
  import opened DnsNames
  import opened Renaming

  const QUOTE: byte := 34
  const BACKSLASH: byte := 92

  function Escape(c: byte): (r: seq<byte>)
    ensures 1 <= |r| <= 2
  {
    if c == QUOTE || c == BACKSLASH then [BACKSLASH, c] else if c < 32 then [32] else [c]
  }

  function EscapeAll(s: seq<byte>): seq<byte> {
    if s == [] then [] else Escape(s[0]) + EscapeAll(s[1..])
  }

  /** How much of the text finds room when `o` of `cap` bytes are taken, one being kept for the NUL. */
  function Fitting(s: seq<byte>, cap: nat, o: nat): (n: nat)
    ensures n <= |s|
  {
    if s == [] || o + |Escape(s[0])| >= cap then 0 else 1 + Fitting(s[1..], cap, o + |Escape(s[0])|)
  }

  /** Control characters cannot be told from spaces. */
  function Shown(s: seq<byte>): (r: seq<byte>)
    ensures |r| == |s| && forall i :: 0 <= i < |s| ==> r[i] == if s[i] < 32 then 32 else s[i]
  {
    if s == [] then [] else [if s[0] < 32 then 32 else s[0]] + Shown(s[1..])
  }

  /** What a JSON reader makes of the inside of a string, limited to the escapes used here. */
  function Unescape(s: seq<byte>): Option<seq<byte>>
    decreases |s|
  {
    if s == [] then Some([])
    else if s[0] == QUOTE || s[0] < 32 then None
    else if s[0] != BACKSLASH then
      var rest := Unescape(s[1..]);
      if rest.None? then None else Some([s[0]] + rest.value)
    else if |s| < 2 || (s[1] != QUOTE && s[1] != BACKSLASH) then None
    else
      var rest := Unescape(s[2..]);
      if rest.None? then None else Some([s[1]] + rest.value)
  }

  lemma {:induction false} UnescapeEscape(s: seq<byte>)
    ensures Unescape(EscapeAll(s)) == Some(Shown(s))
  {
    if s != [] {
      UnescapeEscape(s[1..]);
      var e := Escape(s[0]);
      assert (e + EscapeAll(s[1..]))[|e|..] == EscapeAll(s[1..]);
    }
  }

  lemma {:induction false} FittingFits(s: seq<byte>, cap: nat, o: nat)
    requires o < cap
    ensures o + |EscapeAll(s[..Fitting(s, cap, o)])| < cap
    ensures o + 2 * |s| < cap ==> Fitting(s, cap, o) == |s|
  {
    var n := Fitting(s, cap, o);
    if n > 0 {
      FittingFits(s[1..], cap, o + |Escape(s[0])|);
      assert s[..n][1..] == s[1..][..n - 1];
    } else {
      assert s[..0] == [];
    }
  }

  /**
   * The output always fits its buffer with its NUL and reads back as a prefix of the text, control
   * characters shown as spaces; it is the whole text if the buffer has more than twice its length.
   */
  lemma EscapedIsReadable(s: seq<byte>, cap: nat)
    requires cap > 0
    ensures var n := Fitting(s, cap, 0);
            && |EscapeAll(s[..n])| < cap && Unescape(EscapeAll(s[..n])) == Some(Shown(s[..n]))
            && (2 * |s| < cap ==> n == |s|)
  {
    FittingFits(s, cap, 0);
    UnescapeEscape(s[..Fitting(s, cap, 0)]);
  }

  lemma {:induction false} EscapeAllAppend(s: seq<byte>, c: byte)
    ensures EscapeAll(s + [c]) == EscapeAll(s) + Escape(c)
  {
    if s == [] {
      assert s + [c] == [c] && [c][1..] == [];
    } else {
      assert (s + [c])[1..] == s[1..] + [c];
      EscapeAllAppend(s[1..], c);
      var h, t, e := Escape(s[0]), EscapeAll(s[1..]), Escape(c);
      assert h + (t + e) == h + t + e;
    }
  }

  lemma EscapedHasNoNul(s: seq<byte>)
    ensures 0 !in EscapeAll(s)
  {
    if s != [] {
      EscapedHasNoNul(s[1..]);
    }
  }

  /** One character behind those in `done`: it is written only if it finds room. */
  method PutEscaped(out: array<byte>, o: nat, c: byte, ghost done: seq<byte>) returns (ok: bool, next: nat)
    requires o == |done| < out.Length && forall j :: 0 <= j < o ==> out[j] == done[j]
    modifies out
    ensures ok <==> o + |Escape(c)| < out.Length
    ensures next == o + |Escape(c)|
    ensures forall j :: 0 <= j < o ==> out[j] == done[j]
    ensures ok ==> forall j :: o <= j < next ==> out[j] == Escape(c)[j - o]
  {
    next := if c == QUOTE || c == BACKSLASH then o + 2 else o + 1;
    if next >= out.Length {
      return false, next;
    }
    if c == QUOTE || c == BACKSLASH {
      out[o] := BACKSLASH;
      out[o + 1] := c;
    } else if c < 32 {
      out[o] := 32;
    } else {
      out[o] := c;
    }
    ok := true;
  }

  lemma CharacterStep(s: seq<byte>, i: nat, before: seq<byte>, rest: seq<byte>, cap: nat, o: nat)
    requires i < |s| && before == s[..i] && rest == s[i..]
    ensures before + [s[i]] == s[..i + 1] && rest[1..] == s[i + 1..]
    ensures EscapeAll(before + [s[i]]) == EscapeAll(before) + Escape(s[i])
    ensures Fitting(rest, cap, o) == if o + |Escape(s[i])| >= cap then 0
            else 1 + Fitting(rest[1..], cap, o + |Escape(s[i])|)
  {
    EscapeAllAppend(before, s[i]);
  }

  method EscapeLoop(out: array<byte>, s: seq<byte>) returns (o: nat, ghost done: seq<byte>)
    requires out.Length > 0
    modifies out
    ensures o == |done| < out.Length && done == EscapeAll(s[..Fitting(s, out.Length, 0)])
    ensures forall j :: 0 <= j < o ==> out[j] == done[j]
  {
    o, done := 0, EscapeAll([]);
    ghost var before, rest := s[..0], s;
    var i := 0;
    while i < |s|
      invariant 0 <= i <= |s| && o == |done| < out.Length && before == s[..i] && rest == s[i..]
      invariant done == EscapeAll(before) && Fitting(s, out.Length, 0) == i + Fitting(rest, out.Length, o)
      invariant forall j :: 0 <= j < o ==> out[j] == done[j]
    {
      CharacterStep(s, i, before, rest, out.Length, o);
      var ok, next := PutEscaped(out, o, s[i], done);
      if !ok {
        break;
      }
      before, rest, done := before + [s[i]], rest[1..], done + Escape(s[i]);
      o, i := next, i + 1;
    }
  }

  /** `json_esc` on text that is not NULL. */
  method JsonEsc(out: array<byte>, s: seq<byte>)
    requires out.Length > 0
    modifies out
    ensures CStr(out[..]) == EscapeAll(s[..Fitting(s, out.Length, 0)])
  {
    var o, done := EscapeLoop(out, s);
    out[o] := 0;
    EscapedHasNoNul(s[..Fitting(s, out.Length, 0)]);
    CStrOf(out[..], done);
  }
}
