/** The 17-element association array of crates/pair-pairing/src/mac.rs and the comparison of two MACs. */
module MacArray {
  import opened Octets
  import opened JsonText

  /** The exchanged fields, each the verbatim JSON text of the field, or empty when it was absent. */
  datatype MacInputs = MacInputs(
    vers: string, verp: string, peerId: string, cryptosuites: string, dirs: string, serverInfo: string,
    cryptosuitep: string, dirp: string, nai: string, peerInfo: string,
    pks: string, ns: string, pkp: string, np: string, noob: string)

  const NO_INPUTS := MacInputs("", "", "", "", "", "", "", "", "", "", "", "", "", "", "")

  function El(s: string): string {
    if s == "" then "\"\"" else s
  }

  function Parts(lead: string, m: MacInputs): (parts: seq<string>)
    ensures |parts| == 17
  {
    [lead, El(m.vers), El(m.verp), El(m.peerId), El(m.cryptosuites), El(m.dirs), El(m.serverInfo),
     El(m.cryptosuitep), El(m.dirp), El(m.nai), El(m.peerInfo), "0",
     El(m.pks), El(m.ns), El(m.pkp), El(m.np), El(m.noob)]
  }

  /** The array the MACs are computed over. */
  function ArrayText(lead: string, m: MacInputs): string {
    "[" + Joined(Parts(lead, m)) + "]"
  }

  lemma {:induction false} JoinedExtends(parts: seq<string>, last: string)
    ensures Joined(parts + [last]) == (if parts == [] then "" else Joined(parts) + ",") + last
  {
    if |parts| > 1 {
      JoinedExtends(parts[1..], last);
      assert (parts + [last])[1..] == parts[1..] + [last];
    } else if |parts| == 1 {
      assert (parts + [last])[1..] == [last];
    }
  }

  /** The loop that pushes the parts into one buffer builds the bracketed, comma-joined array. */
  method NoobArray(lead: string, m: MacInputs) returns (out: string)
    ensures out == ArrayText(lead, m)
  {
    var parts := Parts(lead, m);
    out := "[";
    var i := 0;
    while i < |parts|
      invariant 0 <= i <= |parts|
      invariant out == "[" + Joined(parts[..i])
    {
      JoinedExtends(parts[..i], parts[i]);
      assert parts[..i + 1] == parts[..i] + [parts[i]];
      if i > 0 {
        out := out + ",";
      }
      out := out + parts[i];
      i := i + 1;
    }
    assert parts[..i] == parts;
    out := out + "]";
  }

  ghost predicate FieldOk(s: string) {
    s == "" || IsJson(s)
  }

  /** Every field is absent or the text of a JSON value. */
  ghost predicate InputsOk(m: MacInputs) {
    FieldOk(m.vers) && FieldOk(m.verp) && FieldOk(m.peerId) && FieldOk(m.cryptosuites) && FieldOk(m.dirs)
    && FieldOk(m.serverInfo) && FieldOk(m.cryptosuitep) && FieldOk(m.dirp) && FieldOk(m.nai) && FieldOk(m.peerInfo)
    && FieldOk(m.pks) && FieldOk(m.ns) && FieldOk(m.pkp) && FieldOk(m.np) && FieldOk(m.noob)
  }

  /** All fifteen fields agree, an absent field being the same as the text `""`. */
  predicate SameFields(a: MacInputs, b: MacInputs) {
    El(a.vers) == El(b.vers) && El(a.verp) == El(b.verp) && El(a.peerId) == El(b.peerId)
    && El(a.cryptosuites) == El(b.cryptosuites) && El(a.dirs) == El(b.dirs) && El(a.serverInfo) == El(b.serverInfo)
    && El(a.cryptosuitep) == El(b.cryptosuitep) && El(a.dirp) == El(b.dirp) && El(a.nai) == El(b.nai)
    && El(a.peerInfo) == El(b.peerInfo) && El(a.pks) == El(b.pks) && El(a.ns) == El(b.ns)
    && El(a.pkp) == El(b.pkp) && El(a.np) == El(b.np) && El(a.noob) == El(b.noob)
  }

  lemma FieldIsElement(s: string)
    requires FieldOk(s)
    ensures IsElement(El(s))
  {
    if s == "" {
      TextPasses(0, []);
      assert RenderText([]) == "\"\"";
    } else {
      JsonIsElement(s);
    }
  }

  lemma PartsAreElements(lead: string, m: MacInputs)
    requires IsElement(lead) && InputsOk(m)
    ensures forall i :: 0 <= i < 17 ==> IsElement(Parts(lead, m)[i])
  {
    NeutralPasses(0, "0");
    FieldIsElement(m.vers); FieldIsElement(m.verp); FieldIsElement(m.peerId);
    FieldIsElement(m.cryptosuites); FieldIsElement(m.dirs);
    FieldIsElement(m.serverInfo); FieldIsElement(m.cryptosuitep); FieldIsElement(m.dirp);
    FieldIsElement(m.nai); FieldIsElement(m.peerInfo);
    FieldIsElement(m.pks); FieldIsElement(m.ns); FieldIsElement(m.pkp); FieldIsElement(m.np); FieldIsElement(m.noob);
  }

  /** Splitting the array at its separating commas returns exactly the 17 elements. */
  lemma ArraySplits(lead: string, m: MacInputs)
    requires IsElement(lead) && InputsOk(m)
    ensures Elements(ArrayText(lead, m)) == Parts(lead, m)
  {
    PartsAreElements(lead, m);
    SplitJoined(Parts(lead, m));
    var text, inner := ArrayText(lead, m), Joined(Parts(lead, m));
    assert text[1..|text| - 1] == inner;
  }

  /** Equal arrays have the same lead and the same fifteen fields. */
  lemma ArrayUnambiguous(lead: string, m: MacInputs, lead': string, m': MacInputs)
    requires IsElement(lead) && InputsOk(m) && IsElement(lead') && InputsOk(m')
    requires ArrayText(lead, m) == ArrayText(lead', m')
    ensures lead == lead' && SameFields(m, m')
  {
    ArraySplits(lead, m);
    ArraySplits(lead', m');
    var p, q := Parts(lead, m), Parts(lead', m');
    assert forall i :: 0 <= i < 17 ==> p[i] == q[i];
    assert p[0] == q[0] && p[1] == q[1] && p[2] == q[2] && p[3] == q[3] && p[4] == q[4] && p[5] == q[5] && p[6] == q[6]
        && p[7] == q[7] && p[8] == q[8] && p[9] == q[9] && p[10] == q[10] && p[12] == q[12] && p[13] == q[13]
        && p[14] == q[14] && p[15] == q[15] && p[16] == q[16];
  }

  // ---- constant-time comparison ----

  function OrBits(x: nat, y: nat): nat {
    if x == 0 && y == 0 then 0
    else 2 * OrBits(x / 2, y / 2) + (if x % 2 == 1 || y % 2 == 1 then 1 else 0)
  }

  function XorBits(x: nat, y: nat): nat {
    if x == 0 && y == 0 then 0
    else 2 * XorBits(x / 2, y / 2) + (if x % 2 != y % 2 then 1 else 0)
  }

  lemma {:induction false} XorZero(x: nat, y: nat)
    ensures XorBits(x, y) == 0 <==> x == y
  {
    if x != 0 || y != 0 {
      XorZero(x / 2, y / 2);
    }
  }

  lemma {:induction false} OrZero(x: nat, y: nat)
    ensures OrBits(x, y) == 0 <==> x == 0 && y == 0
  {
    if x != 0 || y != 0 {
      OrZero(x / 2, y / 2);
    }
  }

  /** Accumulating every difference accepts exactly equal octet strings. */
  method MacEqual(a: Bytes, b: Bytes) returns (same: bool)
    ensures same <==> a == b
  {
    if |a| != |b| {
      return false;
    }
    var diff: nat := 0;
    var i := 0;
    while i < |a|
      invariant 0 <= i <= |a|
      invariant diff == 0 <==> a[..i] == b[..i]
    {
      OrZero(diff, XorBits(a[i], b[i]));
      XorZero(a[i], b[i]);
      assert a[..i + 1] == a[..i] + [a[i]] && b[..i + 1] == b[..i] + [b[i]];
      diff := OrBits(diff, XorBits(a[i], b[i]));
      i := i + 1;
    }
    assert a[..i] == a && b[..i] == b;
    return diff == 0;
  }

  // ---- the array element by element ----

  /** An absent field is shown as an empty JSON string, any other as it is. */
  predicate Shows(element: string, field: string) {
    element == if field == "" then "\"\"" else field
  }

  /** The 17 elements of section 3.3.2 of RFC 9140, each in its place. */
  predicate InPlace(e: seq<string>, lead: string, m: MacInputs) {
    && |e| == 17 && e[0] == lead
    && Shows(e[1], m.vers) && Shows(e[2], m.verp) && Shows(e[3], m.peerId) && Shows(e[4], m.cryptosuites)
    && Shows(e[5], m.dirs) && Shows(e[6], m.serverInfo)
    && Shows(e[7], m.cryptosuitep) && Shows(e[8], m.dirp) && Shows(e[9], m.nai) && Shows(e[10], m.peerInfo)
    && e[11] == "0"
    && Shows(e[12], m.pks) && Shows(e[13], m.ns) && Shows(e[14], m.pkp) && Shows(e[15], m.np) && Shows(e[16], m.noob)
  }

  /** A text between brackets, with single commas and nothing else between its elements. */
  function Bracketed(e: seq<string>): string
    requires |e| == 17
  {
    "[" + e[0] + "," + e[1] + "," + e[2] + "," + e[3] + "," + e[4] + "," + e[5] + "," + e[6] + "," + e[7] + "," + e[8]
    + "," + e[9] + "," + e[10] + "," + e[11] + "," + e[12] + "," + e[13] + "," + e[14] + "," + e[15] + "," + e[16] + "]"
  }

  lemma OnePartMore(e: seq<string>, n: nat)
    requires 0 < n < |e|
    ensures "[" + Joined(e[..n + 1]) == "[" + Joined(e[..n]) + "," + e[n]
  {
    JoinedExtends(e[..n], e[n]);
    assert e[..n + 1] == e[..n] + [e[n]];
  }

  lemma JoinedInFull(e: seq<string>)
    requires |e| == 17
    ensures "[" + Joined(e) + "]" == Bracketed(e)
  {
    assert Joined(e[..1]) == e[0];
    forall n: nat | 0 < n < 17
      ensures "[" + Joined(e[..n + 1]) == "[" + Joined(e[..n]) + "," + e[n]
    {
      OnePartMore(e, n);
    }
    hide Joined;
    assert e[..17] == e;
    assert "[" + Joined(e[..5]) == "[" + e[0] + "," + e[1] + "," + e[2] + "," + e[3] + "," + e[4];
    assert "[" + Joined(e[..9]) == "[" + Joined(e[..5]) + "," + e[5] + "," + e[6] + "," + e[7] + "," + e[8];
    assert "[" + Joined(e[..13]) == "[" + Joined(e[..9]) + "," + e[9] + "," + e[10] + "," + e[11] + "," + e[12];
    assert "[" + Joined(e[..17]) == "[" + Joined(e[..13]) + "," + e[13] + "," + e[14] + "," + e[15] + "," + e[16];
  }

  /** What the MACs cover, whatever the fields hold: these elements, written in this way. */
  lemma ArrayInFull(lead: string, m: MacInputs) returns (e: seq<string>)
    ensures InPlace(e, lead, m) && ArrayText(lead, m) == Bracketed(e)
  {
    e := Parts(lead, m);
    JoinedInFull(e);
  }

  /** And reading it back gives each field at its place. */
  lemma ArrayFields(lead: string, m: MacInputs)
    requires IsElement(lead) && InputsOk(m)
    ensures InPlace(Elements(ArrayText(lead, m)), lead, m)
  {
    ArraySplits(lead, m);
    PartsInPlace(lead, m);
    hide InPlace, Parts, ArrayText, Elements;
  }

  lemma PartsInPlace(lead: string, m: MacInputs)
    ensures InPlace(Parts(lead, m), lead, m)
  {
  }
}
