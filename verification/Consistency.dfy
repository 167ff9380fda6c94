/**
 * The laws assumed of the primitives can all hold at once: a record of functions is built that obeys them.
 * Every printer below is one injective printing of integer lists, and every parser inverts it.
 */
module Consistency {
  import opened Octets
  import opened Decimal
  import opened JsonText
  import opened Primitives
  import opened Pin
  import opened Pem

  // ---- lists of integers print injectively ----

  lemma PrintedElements(l: seq<int>)
    ensures forall i :: 0 <= i < |l| ==> IsElement(Printed(l)[i]) && Printed(l)[i] != ""
    ensures l != [] ==> Printed(l) != [""]
  {
    forall i | 0 <= i < |l|
      ensures IsElement(Printed(l)[i]) && Printed(l)[i] != ""
    {
      ShowIntIsJson(l[i]);
      JsonIsElement(ShowInt(l[i]));
    }
    if l != [] {
      assert Printed(l)[0] != [""][0];
    }
  }

  /** The pieces of a printed list are its printed integers, and of the empty list one empty piece. */
  lemma PiecesOfPrinted(l: seq<int>)
    ensures SplitFrom(TOP, Joined(Printed(l))) == if l == [] then [""] else Printed(l)
  {
    PrintedElements(l);
    if l != [] {
      SplitJoined(Printed(l));
    }
  }

  lemma ShowIntsInjective(a: seq<int>, b: seq<int>)
    requires ShowInts(a) == ShowInts(b)
    ensures a == b
  {
    var ta, tb := Joined(Printed(a)), Joined(Printed(b));
    assert ShowInts(a)[1..|ta| + 1] == ta && ShowInts(b)[1..|tb| + 1] == tb;
    PiecesOfPrinted(a);
    PiecesOfPrinted(b);
    PrintedElements(a);
    PrintedElements(b);
    hide ShowInt, SplitFrom, IsElement, Joined;
    if a != [] && b != [] {
      assert |a| == |Printed(a)| == |Printed(b)| == |b|;
      forall i | 0 <= i < |a|
        ensures a[i] == b[i]
      {
        assert Printed(a)[i] == Printed(b)[i];
        ShowIntInjective(a[i], b[i]);
      }
    }
  }

  // ---- everything that is printed, as a list of integers ----

  function Codes(s: string): (l: seq<int>)
    ensures |l| == |s|
  {
    seq(|s|, i requires 0 <= i < |s| => s[i] as int)
  }

  lemma CodesInjective(a: string, b: string)
    requires Codes(a) == Codes(b)
    ensures a == b
  {
    forall i | 0 <= i < |a|
      ensures a[i] == b[i]
    {
      assert Codes(a)[i] == Codes(b)[i];
    }
  }

  /** A list put before another, with its length in front. */
  function Then(a: seq<int>, b: seq<int>): seq<int> {
    [|a|] + a + b
  }

  lemma ThenInjective(a: seq<int>, b: seq<int>, c: seq<int>, d: seq<int>)
    requires Then(a, b) == Then(c, d)
    ensures a == c && b == d
  {
    assert Then(a, b)[0] == |a| && Then(c, d)[0] == |c|;
    assert Then(a, b)[1..|a| + 1] == a && Then(c, d)[1..|c| + 1] == c;
    assert Then(a, b)[|a| + 1..] == b && Then(c, d)[|c| + 1..] == d;
  }

  function TextsOf(l: seq<string>): seq<int> {
    if |l| == 0 then [] else Then(Codes(l[0]), TextsOf(l[1..]))
  }

  lemma {:induction false} TextsInjective(a: seq<string>, b: seq<string>)
    requires TextsOf(a) == TextsOf(b)
    ensures a == b
  {
    if |a| > 0 && |b| > 0 {
      ThenInjective(Codes(a[0]), TextsOf(a[1..]), Codes(b[0]), TextsOf(b[1..]));
      CodesInjective(a[0], b[0]);
      TextsInjective(a[1..], b[1..]);
      assert a == [a[0]] + a[1..] && b == [b[0]] + b[1..];
    }
  }

  function JwkCodes(j: Jwk): seq<int> {
    TextsOf([j.kty, j.crv, j.x] + match j.y case Some(y) => [y] case None => [])
  }

  lemma JwkInjective(a: Jwk, b: Jwk)
    requires JwkCodes(a) == JwkCodes(b)
    ensures a == b
  {
    var la := [a.kty, a.crv, a.x] + match a.y case Some(y) => [y] case None => [];
    var lb := [b.kty, b.crv, b.x] + match b.y case Some(y) => [y] case None => [];
    TextsInjective(la, lb);
    assert la[0] == lb[0] && la[1] == lb[1] && la[2] == lb[2] && |la| == |lb|;
    assert |la| > 3 ==> la[3] == lb[3];
  }

  function InfoCodes(i: PairingInfo): seq<int> {
    [i.v, i.admissionEpoch]
    + TextsOf([i.nodeUuid, i.nodeId, i.name, i.clusterId, i.clusterFriendlyName, i.addr, i.cert])
  }

  lemma InfoInjective(a: PairingInfo, b: PairingInfo)
    requires InfoCodes(a) == InfoCodes(b)
    ensures a == b
  {
    assert InfoCodes(a)[0] == InfoCodes(b)[0] && InfoCodes(a)[1] == InfoCodes(b)[1];
    assert InfoCodes(a)[2..] == InfoCodes(b)[2..];
    var la := [a.nodeUuid, a.nodeId, a.name, a.clusterId, a.clusterFriendlyName, a.addr, a.cert];
    var lb := [b.nodeUuid, b.nodeId, b.name, b.clusterId, b.clusterFriendlyName, b.addr, b.cert];
    TextsInjective(la, lb);
    assert forall n :: 0 <= n < 7 ==> la[n] == lb[n];
  }

  // ---- printers and their inverses ----

  function Quote(s: string): string { ShowInts(Codes(s)) }

  function ShowKey(j: Jwk): string { ShowInts(JwkCodes(j)) }

  function ShowInfo(i: PairingInfo): string { ShowInts(InfoCodes(i)) }

  function Latin(b: Bytes): string {
    seq(|b|, i requires 0 <= i < |b| => b[i] as char)
  }

  /** Three octets a character. */
  function Utf(s: string): Bytes {
    if s == "" then []
    else [s[0] as int % 256, s[0] as int / 256 % 256, s[0] as int / 65536] + Utf(s[1..])
  }

  lemma {:induction false} UtfInjective(a: string, b: string)
    requires Utf(a) == Utf(b)
    ensures a == b
    decreases a
  {
    if a != "" && b != "" {
      assert Utf(a)[0] == Utf(b)[0] && Utf(a)[1] == Utf(b)[1] && Utf(a)[2] == Utf(b)[2];
      assert Utf(a)[3..] == Utf(a[1..]) && Utf(b)[3..] == Utf(b[1..]);
      SameOctets(a[0] as int, b[0] as int);
      UtfInjective(a[1..], b[1..]);
      assert a == [a[0]] + a[1..] && b == [b[0]] + b[1..];
    }
  }

  lemma SameOctets(c: int, d: int)
    requires c % 256 == d % 256 && c / 256 % 256 == d / 256 % 256 && c / 65536 == d / 65536
    ensures c == d
  {
    assert c / 256 == c / 65536 * 256 + c / 256 % 256;
    assert d / 256 == d / 65536 * 256 + d / 256 % 256;
  }

  ghost predicate Injective<T(!new)>(show: T -> string) {
    forall a, b :: show(a) == show(b) ==> a == b
  }

  /** The value that prints as `t`, if there is one. */
  ghost function Inverse<T(!new)>(show: T -> string, t: string): Option<T> {
    if exists v :: show(v) == t then
      var v :| show(v) == t;
      Some(v)
    else None
  }

  lemma InverseInverts<T(!new)>(show: T -> string)
    requires Injective(show)
    ensures forall v :: Inverse(show, show(v)) == Some(v)
  {
  }

  lemma PrintersInjective()
    ensures Injective(Quote) && Injective(ShowKey) && Injective(ShowInfo) && Injective(Latin)
    ensures Injective(ShowInt) && Injective(ShowInts)
  {
    hide ShowInts, ShowInt;
    forall a, b | Quote(a) == Quote(b) ensures a == b {
      ShowIntsInjective(Codes(a), Codes(b));
      CodesInjective(a, b);
    }
    forall a, b | ShowKey(a) == ShowKey(b) ensures a == b {
      ShowIntsInjective(JwkCodes(a), JwkCodes(b));
      JwkInjective(a, b);
    }
    forall a, b | ShowInfo(a) == ShowInfo(b) ensures a == b {
      ShowIntsInjective(InfoCodes(a), InfoCodes(b));
      InfoInjective(a, b);
    }
    forall a, b | Latin(a) == Latin(b) ensures a == b {
      LatinInjective(a, b);
    }
    forall a, b | ShowInt(a) == ShowInt(b) ensures a == b {
      ShowIntInjective(a, b);
    }
    forall a, b | ShowInts(a) == ShowInts(b) ensures a == b {
      ShowIntsInjective(a, b);
    }
  }

  lemma LatinInjective(a: Bytes, b: Bytes)
    requires Latin(a) == Latin(b)
    ensures a == b
  {
    assert |a| == |Latin(a)| == |Latin(b)| == |b|;
    forall i | 0 <= i < |a|
      ensures a[i] == b[i]
    {
      assert Latin(a)[i] == Latin(b)[i];
    }
  }

  const ZEROS: Bytes := seq(32, _ => 0)

  /** What the NoobId of a PIN is the digest of. */
  function PinText(pin: string): string {
    "[\"NoobId\"," + Quote(Latin(NoobFromPin(pin))) + "]"
  }

  /** A digest that takes all PINs apart. */
  ghost function Digest(x: Bytes): (d: Bytes)
    ensures |d| == 32
  {
    if exists pin :: IsValidPin(pin) && Utf(PinText(pin)) == x then
      var pin :| IsValidPin(pin) && Utf(PinText(pin)) == x;
      NoobFromPin(pin) + NoobFromPin(pin)
    else ZEROS
  }

  lemma PinTextInjective(a: string, b: string)
    requires Utf(PinText(a)) == Utf(PinText(b))
    ensures NoobFromPin(a) == NoobFromPin(b)
  {
    UtfInjective(PinText(a), PinText(b));
    hide NoobFromPin, Quote, Latin, Utf;
    var p := "[\"NoobId\",";
    var qa, qb := Quote(Latin(NoobFromPin(a))), Quote(Latin(NoobFromPin(b)));
    assert PinText(a)[|p|..|PinText(a)| - 1] == qa && PinText(b)[|p|..|PinText(b)| - 1] == qb;
    PrintersInjective();
  }

  lemma DigestOfPin(pin: string)
    requires IsValidPin(pin)
    ensures Digest(Utf(PinText(pin)))[..16] == NoobFromPin(pin)
  {
    var x := Utf(PinText(pin));
    var chosen :|
      && IsValidPin(chosen) && Utf(PinText(chosen)) == x
      && Digest(x) == NoobFromPin(chosen) + NoobFromPin(chosen);
    PinTextInjective(chosen, pin);
  }

  /** A certificate carries as its UUID all that follows its first octet. */
  function UuidIn(der: Bytes): Option<string> {
    if der == [] then None else Some(Latin(der[1..]))
  }

  ghost function Example(): Primitives {
    Primitives(x => Digest(x), (_, _) => ZEROS, _ => Jwk("", "", "", None), (_, _) => Some([]), Utf,
               Quote, t => Inverse(Quote, t), t => Inverse(ShowInt, t), t => Inverse(ShowInts, t),
               ShowKey, t => Inverse(ShowKey, t), Latin, t => Inverse(Latin, t), ShowInfo, t => Inverse(ShowInfo, t),
               UuidIn)
  }

  lemma HashLawsHold()
    ensures HashLaws(Example())
  {
    hide Quote, ShowKey, ShowInfo, Latin, ShowInt, ShowInts, Inverse, Digest;
    forall a, b | Utf(a) == Utf(b) ensures a == b {
      UtfInjective(a, b);
    }
  }

  lemma JsonPrinters()
    ensures forall s :: IsJson(Quote(s))
    ensures forall j :: IsJson(ShowKey(j))
    ensures forall i :: IsJson(ShowInfo(i))
  {
    hide IsJson, ShowInts;
    forall s ensures IsJson(Quote(s)) { ShowIntsIsJson(Codes(s)); }
    forall j ensures IsJson(ShowKey(j)) { ShowIntsIsJson(JwkCodes(j)); }
    forall i ensures IsJson(ShowInfo(i)) { ShowIntsIsJson(InfoCodes(i)); }
  }

  lemma TextLawsHold()
    ensures TextLaws(Example())
  {
    PrintersInjective();
    JsonPrinters();
    InverseInverts(Quote);
    InverseInverts(ShowInt);
    InverseInverts(ShowInts);
    InverseInverts(ShowKey);
    InverseInverts(Latin);
    assert Latin([]) == "";
    hide IsJson, Quote, ShowKey, ShowInfo, Latin, ShowInt, ShowInts, Inverse, Injective, Utf, Digest, UuidIn;
  }

  lemma OtherLawsHold()
    ensures KeyLaws(Example()) && InfoLaws(Example())
  {
    PrintersInjective();
    InverseInverts(ShowInfo);
    hide Quote, ShowKey, ShowInfo, Latin, ShowInt, ShowInts, Inverse, Injective, Utf, Digest, UuidIn;
  }

  /** The laws are consistent. */
  lemma LawsHaveAModel()
    ensures Lawful(Example())
  {
    hide HashLaws, TextLaws, KeyLaws, InfoLaws, Example;
    HashLawsHold();
    TextLawsHold();
    OtherLawsHold();
  }

  // ---- certificates ----

  predicate IsLatin(s: string) {
    forall i :: 0 <= i < |s| ==> s[i] as int < 256
  }

  function DerOf(id: string): (der: Bytes)
    requires IsLatin(id)
    ensures |der| == |id| + 1
  {
    [0] + seq(|id|, i requires 0 <= i < |id| => id[i] as int)
  }

  /** There is a PEM whose certificate carries `id`. */
  lemma CertificateOf(id: string)
    requires IsLatin(id)
    ensures PemToDer(PemOf(DerOf(id))) == Some(DerOf(id)) && Example().nodeUuid(DerOf(id)) == Some(id)
  {
    PemOfDecodes(DerOf(id));
    assert Latin(DerOf(id)[1..]) == id;
    hide PemToDer, PemOf, DerOf, Latin;
  }
}
