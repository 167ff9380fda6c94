/** The signed membership payloads of crates/pair-trust/src/membership.rs: newline-joined, domain-prefixed text. */
module Membership {
  import opened Decimal

  const ENDORSE_DOMAIN_V1 := "nvpair-endorse:v1"
  const ENDORSE_DOMAIN_V2 := "nvpair-endorse:v2"
  const TOMBSTONE_DOMAIN_V1 := "nvpair-remove:v1"
  const TOMBSTONE_DOMAIN_V2 := "nvpair-remove:v2"

  /** What a payload says, whichever of the four builders makes it. */
  datatype Claim =
    | EndorseV1(introduced: string, fingerprint: string, clusterId: string, issuedAt: int)
    | EndorseV2(introduced: string, fingerprint: string, clusterId: string, admissionEpoch: nat, byAdmissionEpoch: nat,
                issuedAt: int)
    | TombstoneV1(nodeUuid: string, clusterId: string, removedAt: int)
    | TombstoneV2(nodeUuid: string, clusterId: string, admissionEpoch: nat, byAdmissionEpoch: nat, removedAt: int)

  /** `format!` with the parts separated by line feeds. */
  function JoinLines(lines: seq<string>): string {
    if |lines| == 0 then "" else if |lines| == 1 then lines[0] else lines[0] + ("\n" + JoinLines(lines[1..]))
  }

  function EndorsePayloadV1(introduced: string, fingerprint: string, clusterId: string, issuedAt: int): string {
    JoinLines([ENDORSE_DOMAIN_V1, introduced, fingerprint, clusterId, ShowInt(issuedAt)])
  }

  function EndorsePayloadV2(introduced: string, fingerprint: string, clusterId: string,
                            admissionEpoch: nat, byAdmissionEpoch: nat, issuedAt: int): string {
    JoinLines([ENDORSE_DOMAIN_V2, introduced, fingerprint, clusterId, ShowInt(admissionEpoch),
               ShowInt(byAdmissionEpoch), ShowInt(issuedAt)])
  }

  function TombstonePayloadV1(nodeUuid: string, clusterId: string, removedAt: int): string {
    JoinLines([TOMBSTONE_DOMAIN_V1, nodeUuid, clusterId, ShowInt(removedAt)])
  }

  function TombstonePayloadV2(nodeUuid: string, clusterId: string,
                              admissionEpoch: nat, byAdmissionEpoch: nat, removedAt: int): string {
    JoinLines([TOMBSTONE_DOMAIN_V2, nodeUuid, clusterId, ShowInt(admissionEpoch), ShowInt(byAdmissionEpoch),
               ShowInt(removedAt)])
  }

  function Payload(c: Claim): string {
    match c
    case EndorseV1(u, f, c, t) => EndorsePayloadV1(u, f, c, t)
    case EndorseV2(u, f, c, e, b, t) => EndorsePayloadV2(u, f, c, e, b, t)
    case TombstoneV1(u, c, t) => TombstonePayloadV1(u, c, t)
    case TombstoneV2(u, c, e, b, t) => TombstonePayloadV2(u, c, e, b, t)
  }

  /** The lines a payload consists of. */
  function Fields(c: Claim): (lines: seq<string>)
    ensures Payload(c) == JoinLines(lines)
  {
    match c
    case EndorseV1(u, f, c, t) => [ENDORSE_DOMAIN_V1, u, f, c, ShowInt(t)]
    case EndorseV2(u, f, c, e, b, t) => [ENDORSE_DOMAIN_V2, u, f, c, ShowInt(e), ShowInt(b), ShowInt(t)]
    case TombstoneV1(u, c, t) => [TOMBSTONE_DOMAIN_V1, u, c, ShowInt(t)]
    case TombstoneV2(u, c, e, b, t) => [TOMBSTONE_DOMAIN_V2, u, c, ShowInt(e), ShowInt(b), ShowInt(t)]
  }

  predicate OneLine(s: string) {
    forall i :: 0 <= i < |s| ==> s[i] != '\n'
  }

  predicate FieldsOneLine(c: Claim) {
    match c
    case EndorseV1(u, f, c, _) => OneLine(u) && OneLine(f) && OneLine(c)
    case EndorseV2(u, f, c, _, _, _) => OneLine(u) && OneLine(f) && OneLine(c)
    case TombstoneV1(u, c, _) => OneLine(u) && OneLine(c)
    case TombstoneV2(u, c, _, _, _) => OneLine(u) && OneLine(c)
  }

  /** A line that a line feed or the end follows cannot be shorter than another such line of the same text. */
  lemma NotShorter(a: string, s: string, b: string, t: string)
    requires OneLine(b) && a + s == b + t
    requires s == "" || s[0] == '\n'
    ensures |a| >= |b|
  {
    var x := a + s;
    assert |a| < |b| ==> x[|a|] == b[|a|] by {
      assert x[..|b|] == b;
    }
    assert s != "" ==> x[|a|] == s[0];
  }

  /** The first lines of two equal texts are equal, and so is what follows them. */
  lemma FirstLine(a: string, s: string, b: string, t: string)
    requires OneLine(a) && OneLine(b)
    requires a + s == b + t
    requires (s == "" || s[0] == '\n') && (t == "" || t[0] == '\n')
    ensures a == b && s == t
  {
    NotShorter(a, s, b, t);
    NotShorter(b, t, a, s);
    assert (a + s)[..|a|] == a && (b + t)[..|b|] == b && (a + s)[|a|..] == s && (b + t)[|b|..] == t;
  }

  /** Nonempty lists of lines are determined by their joined text. */
  lemma {:induction false} JoinInjective(a: seq<string>, b: seq<string>)
    requires |a| > 0 && |b| > 0
    requires forall i :: 0 <= i < |a| ==> OneLine(a[i])
    requires forall i :: 0 <= i < |b| ==> OneLine(b[i])
    requires JoinLines(a) == JoinLines(b)
    ensures a == b
  {
    var s := if |a| == 1 then "" else "\n" + JoinLines(a[1..]);
    var t := if |b| == 1 then "" else "\n" + JoinLines(b[1..]);
    assert JoinLines(a) == a[0] + s && JoinLines(b) == b[0] + t;
    FirstLine(a[0], s, b[0], t);
    if |a| > 1 {
      assert s[1..] == JoinLines(a[1..]) && t[1..] == JoinLines(b[1..]);
      JoinInjective(a[1..], b[1..]);
      assert a == [a[0]] + a[1..] && b == [b[0]] + b[1..];
    } else {
      assert a == [a[0]] && b == [b[0]];
    }
  }

  lemma NumbersOneLine(n: int)
    ensures OneLine(ShowInt(n))
  {
    var s := if n < 0 then ShowNat(-n) else ShowNat(n);
    assert forall i :: 0 <= i < |s| ==> IsDigit(s[i]);
    assert forall i :: 0 <= i < |ShowInt(n)| ==> ShowInt(n)[i] == '-' || IsDigit(ShowInt(n)[i]);
  }

  /** Equal payloads make equal claims, of the same kind and version, when the text fields are single lines. */
  lemma PayloadInjective(c: Claim, d: Claim)
    requires FieldsOneLine(c) && FieldsOneLine(d)
    requires Payload(c) == Payload(d)
    ensures c == d
  {
    FieldsAreLines(c);
    FieldsAreLines(d);
    JoinInjective(Fields(c), Fields(d));
    FieldsInjective(c, d);
  }

  lemma FieldsAreLines(c: Claim)
    requires FieldsOneLine(c)
    ensures forall i :: 0 <= i < |Fields(c)| ==> OneLine(Fields(c)[i])
  {
    match c
    case EndorseV1(_, _, _, t) => NumbersOneLine(t);
    case EndorseV2(_, _, _, e, b, t) => NumbersOneLine(e); NumbersOneLine(b); NumbersOneLine(t);
    case TombstoneV1(_, _, t) => NumbersOneLine(t);
    case TombstoneV2(_, _, e, b, t) => NumbersOneLine(e); NumbersOneLine(b); NumbersOneLine(t);
  }

  lemma FieldsInjective(c: Claim, d: Claim)
    requires Fields(c) == Fields(d)
    ensures c == d
  {
    var f, g := Fields(c), Fields(d);
    assert f[0] == g[0] && |f| == |g|;
    match c {
      case EndorseV1(u, f', c', t) =>
        assert f[1] == g[1] && f[2] == g[2] && f[3] == g[3] && f[4] == g[4];
        ShowIntInjective(t, d.issuedAt);
      case EndorseV2(u, f', c', e, b, t) =>
        assert f[1] == g[1] && f[2] == g[2] && f[3] == g[3] && f[4] == g[4] && f[5] == g[5] && f[6] == g[6];
        ShowIntInjective(t, d.issuedAt);
        ShowIntInjective(e, d.admissionEpoch);
        ShowIntInjective(b, d.byAdmissionEpoch);
      case TombstoneV1(u, c', t) =>
        assert f[1] == g[1] && f[2] == g[2] && f[3] == g[3];
        ShowIntInjective(t, d.removedAt);
      case TombstoneV2(u, c', e, b, t) =>
        assert f[1] == g[1] && f[2] == g[2] && f[3] == g[3] && f[4] == g[4] && f[5] == g[5];
        ShowIntInjective(t, d.removedAt);
        ShowIntInjective(e, d.admissionEpoch);
        ShowIntInjective(b, d.byAdmissionEpoch);
    }
  }

  /** A line feed can move between two neighbouring fields, so without `FieldsOneLine` payloads are ambiguous. */
  lemma PayloadAmbiguousWithNewline(u: string, f: string, c: string, x: string, t: int)
    ensures Payload(EndorseV1(u, f, c + "\n" + x, t)) == Payload(EndorseV1(u, f + "\n" + c, x, t))
  {
    var n := ShowInt(t);
    var a, b := f + ("\n" + (c + "\n" + x + ("\n" + n))), f + "\n" + c + ("\n" + (x + ("\n" + n)));
    assert a == b;
    JoinTail(u, f, c + "\n" + x, n);
    JoinTail(u, f + "\n" + c, x, n);
  }

  lemma JoinTail(u: string, f: string, c: string, t: string)
    ensures JoinLines([ENDORSE_DOMAIN_V1, u, f, c, t]) ==
              ENDORSE_DOMAIN_V1 + ("\n" + (u + ("\n" + (f + ("\n" + (c + ("\n" + t)))))))
  {
    assert [ENDORSE_DOMAIN_V1, u, f, c, t][1..] == [u, f, c, t] && [u, f, c, t][1..] == [f, c, t];
    assert [f, c, t][1..] == [c, t] && [c, t][1..] == [t];
    assert JoinLines([c, t]) == c + ("\n" + t);
    assert JoinLines([f, c, t]) == f + ("\n" + JoinLines([c, t]));
    assert JoinLines([u, f, c, t]) == u + ("\n" + JoinLines([f, c, t]));
  }

  // ---- exactly which claims have one payload ----

  function Domain(c: Claim): string {
    match c
    case EndorseV1(_, _, _, _) => ENDORSE_DOMAIN_V1
    case EndorseV2(_, _, _, _, _, _) => ENDORSE_DOMAIN_V2
    case TombstoneV1(_, _, _) => TOMBSTONE_DOMAIN_V1
    case TombstoneV2(_, _, _, _, _) => TOMBSTONE_DOMAIN_V2
  }

  function Texts(c: Claim): seq<string> {
    match c
    case EndorseV1(u, f, c, _) => [u, f, c]
    case EndorseV2(u, f, c, _, _, _) => [u, f, c]
    case TombstoneV1(u, c, _) => [u, c]
    case TombstoneV2(u, c, _, _, _) => [u, c]
  }

  function Numbers(c: Claim): seq<int> {
    match c
    case EndorseV1(_, _, _, t) => [t]
    case EndorseV2(_, _, _, e, b, t) => [e, b, t]
    case TombstoneV1(_, _, t) => [t]
    case TombstoneV2(_, _, e, b, t) => [e, b, t]
  }

  /** The numbers printed below a text, a line each. */
  function Onto(text: string, numbers: seq<int>): string {
    if |numbers| == 0 then text
    else Onto(text, numbers[..|numbers| - 1]) + ("\n" + ShowInt(numbers[|numbers| - 1]))
  }

  lemma {:induction false} JoinExtends(lines: seq<string>, last: string)
    requires |lines| > 0
    ensures JoinLines(lines + [last]) == JoinLines(lines) + ("\n" + last)
  {
    assert (lines + [last])[1..] == lines[1..] + [last];
    if |lines| > 1 {
      JoinExtends(lines[1..], last);
      assert lines[0] + ("\n" + (JoinLines(lines[1..]) + ("\n" + last))) ==
             lines[0] + ("\n" + JoinLines(lines[1..])) + ("\n" + last);
    }
  }

  lemma {:induction false} JoinOnto(lines: seq<string>, numbers: seq<int>)
    requires |lines| > 0
    ensures JoinLines(lines + Printed(numbers)) == Onto(JoinLines(lines), numbers)
  {
    hide ShowInt, JoinLines;
    if |numbers| == 0 {
      assert lines + Printed(numbers) == lines;
    } else {
      var n := |numbers| - 1;
      JoinOnto(lines, numbers[..n]);
      JoinExtends(lines + Printed(numbers[..n]), ShowInt(numbers[n]));
      assert lines + Printed(numbers) == lines + Printed(numbers[..n]) + [ShowInt(numbers[n])];
    }
  }

  /** What precedes a last line cannot be shorter than what precedes another such line of the same text. */
  lemma FrontNotShorter(s: string, a: string, t: string, b: string)
    requires OneLine(a) && s + ("\n" + a) == t + ("\n" + b)
    ensures |s| >= |t|
  {
    var x := s + ("\n" + a);
    assert forall i :: |s| < i < |x| ==> x[i] == a[i - |s| - 1];
    assert (t + ("\n" + b))[|t|] == '\n';
  }

  /** The last lines of two equal texts are equal, and so is what precedes them. */
  lemma LastLine(s: string, a: string, t: string, b: string)
    requires OneLine(a) && OneLine(b) && s + ("\n" + a) == t + ("\n" + b)
    ensures s == t && a == b
  {
    FrontNotShorter(s, a, t, b);
    FrontNotShorter(t, b, s, a);
    assert (s + ("\n" + a))[..|s|] == s && (t + ("\n" + b))[..|t|] == t;
    assert (s + ("\n" + a))[|s| + 1..] == a && (t + ("\n" + b))[|t| + 1..] == b;
  }

  lemma {:induction false} OntoInjective(s: string, a: seq<int>, t: string, b: seq<int>)
    requires |a| == |b| && Onto(s, a) == Onto(t, b)
    ensures s == t && a == b
  {
    hide ShowInt, OneLine;
    if |a| > 0 {
      var n := |a| - 1;
      NumbersOneLine(a[n]);
      NumbersOneLine(b[n]);
      LastLine(Onto(s, a[..n]), ShowInt(a[n]), Onto(t, b[..n]), ShowInt(b[n]));
      ShowIntInjective(a[n], b[n]);
      OntoInjective(s, a[..n], t, b[..n]);
      assert a == a[..n] + [a[n]] && b == b[..n] + [b[n]];
    }
  }

  lemma FieldsAligned(c: Claim)
    ensures Fields(c) == [Domain(c)] + Texts(c) + Printed(Numbers(c))
  {
    hide ShowInt;
    var n := Printed(Numbers(c));
    assert |Numbers(c)| == 1 ==> n == [ShowInt(Numbers(c)[0])];
    assert |Numbers(c)| == 3 ==> n == [ShowInt(Numbers(c)[0]), ShowInt(Numbers(c)[1]), ShowInt(Numbers(c)[2])];
  }

  /** A payload is its domain, its text fields and its numbers, below one another. */
  lemma PayloadLayout(c: Claim)
    ensures Payload(c) == Onto(Domain(c) + ("\n" + JoinLines(Texts(c))), Numbers(c))
  {
    var lines := [Domain(c)] + Texts(c);
    JoinOnto(lines, Numbers(c));
    FieldsAligned(c);
    hide Fields, Printed, Numbers, Onto, ShowInt;
    assert lines[1..] == Texts(c);
  }

  lemma {:induction false} OntoKeepsFront(front: string, rest: string, numbers: seq<int>) returns (tail: string)
    ensures Onto(front + rest, numbers) == front + tail && (rest != "" ==> tail != "" && tail[0] == rest[0])
  {
    hide ShowInt;
    if |numbers| == 0 {
      tail := rest;
    } else {
      var n := |numbers| - 1;
      var t := OntoKeepsFront(front, rest, numbers[..n]);
      tail := t + ("\n" + ShowInt(numbers[n]));
      assert front + t + ("\n" + ShowInt(numbers[n])) == front + tail;
    }
  }

  lemma DomainsApart(c: Claim, d: Claim)
    requires Domain(c) == Domain(d)
    ensures |Numbers(c)| == |Numbers(d)| && |Texts(c)| == |Texts(d)|
    ensures c.EndorseV1? == d.EndorseV1? && c.EndorseV2? == d.EndorseV2? && c.TombstoneV1? == d.TombstoneV1?
  {
    assert ENDORSE_DOMAIN_V1[7] == 'e' && ENDORSE_DOMAIN_V2[7] == 'e';
    assert TOMBSTONE_DOMAIN_V1[7] == 'r' && TOMBSTONE_DOMAIN_V2[7] == 'r';
    assert ENDORSE_DOMAIN_V1[16] == '1' && ENDORSE_DOMAIN_V2[16] == '2';
    assert TOMBSTONE_DOMAIN_V1[15] == '1' && TOMBSTONE_DOMAIN_V2[15] == '2';
  }

  lemma DomainsOneLine(c: Claim)
    ensures OneLine(Domain(c))
  {
    assert '\n' !in ENDORSE_DOMAIN_V1 && '\n' !in ENDORSE_DOMAIN_V2 && '\n' !in TOMBSTONE_DOMAIN_V1
        && '\n' !in TOMBSTONE_DOMAIN_V2;
    assert forall i :: 0 <= i < |Domain(c)| ==> Domain(c)[i] in Domain(c);
  }

  /**
   * Whatever the fields hold, two payloads are equal exactly when the claims are of one kind and version, with
   * the same numbers, and their text fields laid out as lines make one text.
   */
  lemma PayloadEqualExactly(c: Claim, d: Claim)
    ensures Payload(c) == Payload(d) <==>
              && Domain(c) == Domain(d) && Numbers(c) == Numbers(d) && JoinLines(Texts(c)) == JoinLines(Texts(d))
  {
    PayloadLayout(c);
    PayloadLayout(d);
    if Payload(c) == Payload(d) {
      var s, t := "\n" + JoinLines(Texts(c)), "\n" + JoinLines(Texts(d));
      var x := OntoKeepsFront(Domain(c), s, Numbers(c));
      var y := OntoKeepsFront(Domain(d), t, Numbers(d));
      DomainsOneLine(c);
      DomainsOneLine(d);
      FirstLine(Domain(c), x, Domain(d), y);
      DomainsApart(c, d);
      OntoInjective(Domain(c) + s, Numbers(c), Domain(d) + t, Numbers(d));
      assert (Domain(c) + s)[|Domain(c)|..] == s && (Domain(d) + t)[|Domain(d)|..] == t;
      assert s[1..] == JoinLines(Texts(c)) && t[1..] == JoinLines(Texts(d));
    }
  }

  // ---- in full ----

  /** The four payloads as texts. */
  lemma PayloadsInFull(u: string, f: string, c: string, e: nat, b: nat, t: int)
    ensures Payload(EndorseV1(u, f, c, t)) ==
              "nvpair-endorse:v1" + "\n" + u + "\n" + f + "\n" + c + "\n" + ShowInt(t)
    ensures Payload(EndorseV2(u, f, c, e, b, t)) ==
              "nvpair-endorse:v2" + "\n" + u + "\n" + f + "\n" + c
              + "\n" + ShowInt(e) + "\n" + ShowInt(b) + "\n" + ShowInt(t)
    ensures Payload(TombstoneV1(u, c, t)) == "nvpair-remove:v1" + "\n" + u + "\n" + c + "\n" + ShowInt(t)
    ensures Payload(TombstoneV2(u, c, e, b, t)) ==
              "nvpair-remove:v2" + "\n" + u + "\n" + c + "\n" + ShowInt(e) + "\n" + ShowInt(b) + "\n" + ShowInt(t)
  {
    hide ShowInt, JoinLines;
    JoinedFour("nvpair-endorse:v1", u, f, c);
    JoinedFour("nvpair-endorse:v2", u, f, c);
    JoinedThree("nvpair-remove:v1", u, c);
    JoinedThree("nvpair-remove:v2", u, c);
    var one, two := ["nvpair-endorse:v1", u, f, c], ["nvpair-endorse:v2", u, f, c];
    var three, four := ["nvpair-remove:v1", u, c], ["nvpair-remove:v2", u, c];
    JoinExtends(one, ShowInt(t));
    ThreeMore(two, ShowInt(e), ShowInt(b), ShowInt(t));
    JoinExtends(three, ShowInt(t));
    ThreeMore(four, ShowInt(e), ShowInt(b), ShowInt(t));
    assert one + [ShowInt(t)] == [ENDORSE_DOMAIN_V1, u, f, c, ShowInt(t)];
    assert two + [ShowInt(e), ShowInt(b), ShowInt(t)] ==
           [ENDORSE_DOMAIN_V2, u, f, c, ShowInt(e), ShowInt(b), ShowInt(t)];
    assert three + [ShowInt(t)] == [TOMBSTONE_DOMAIN_V1, u, c, ShowInt(t)];
    assert four + [ShowInt(e), ShowInt(b), ShowInt(t)] ==
           [TOMBSTONE_DOMAIN_V2, u, c, ShowInt(e), ShowInt(b), ShowInt(t)];
  }

  lemma JoinedThree(a: string, b: string, c: string)
    ensures JoinLines([a, b, c]) == a + "\n" + b + "\n" + c
  {
    assert [a] + [b] == [a, b] && [a, b] + [c] == [a, b, c];
    JoinExtends([a], b);
    JoinExtends([a, b], c);
  }

  lemma JoinedFour(a: string, b: string, c: string, e: string)
    ensures JoinLines([a, b, c, e]) == a + "\n" + b + "\n" + c + "\n" + e
  {
    assert [a, b, c] + [e] == [a, b, c, e];
    JoinedThree(a, b, c);
    JoinExtends([a, b, c], e);
  }

  lemma ThreeMore(lines: seq<string>, x: string, y: string, z: string)
    requires |lines| > 0
    ensures JoinLines(lines + [x, y, z]) == JoinLines(lines) + "\n" + x + "\n" + y + "\n" + z
  {
    hide JoinLines;
    JoinExtends(lines, x);
    JoinExtends(lines + [x], y);
    JoinExtends(lines + [x] + [y], z);
    assert lines + [x] + [y] + [z] == lines + [x, y, z];
    Regrouped(JoinLines(lines), x);
    Regrouped(JoinLines(lines) + "\n" + x, y);
    Regrouped(JoinLines(lines) + "\n" + x + "\n" + y, z);
  }

  lemma Regrouped(a: string, x: string)
    ensures a + ("\n" + x) == a + "\n" + x
  {
  }
}
