/**
 * What the model does not look inside: SHA-256, HMAC, ECDH, JSON (de)serialisation, base64url and
 * X.509. Each is a function of the record; `Lawful` lists all that is ever assumed about them.
 */
module Primitives {
  import opened Octets
  import opened Decimal
  import opened JsonText
  import opened Negotiation
  import opened Kdf
  import opened MacArray

  datatype Jwk = Jwk(kty: string, crv: string, x: string, y: Option<string>)

  datatype KeyPair = KeyPair(suite: Suite, secret: Bytes)

  /** The identity object of crates/pair-cluster/src/info.rs. */
  datatype PairingInfo = PairingInfo(
    v: nat, nodeUuid: string, nodeId: string, name: string, clusterId: string, admissionEpoch: nat,
    clusterFriendlyName: string, addr: string, cert: string)

  datatype Primitives = Primitives(
    sha256: Bytes -> Bytes,
    hmac: (Bytes, Bytes) -> Bytes,
    publicKey: KeyPair -> Jwk,
    sharedSecret: (KeyPair, Jwk) -> Option<Bytes>,
    utf8: string -> Bytes,
    quote: string -> string,
    parseString: string -> Option<string>,
    parseInt: string -> Option<int>,
    parseInts: string -> Option<seq<int>>,
    showJwk: Jwk -> string,
    parseJwk: string -> Option<Jwk>,
    b64: Bytes -> string,
    unb64: string -> Option<Bytes>,
    showInfo: PairingInfo -> string,
    parseInfo: string -> Option<PairingInfo>,
    nodeUuid: Bytes -> Option<string>)

  predicate IsI64(n: int) {
    -0x8000_0000_0000_0000 <= n < 0x8000_0000_0000_0000
  }

  /** `serde_json::to_string` of a list of integers. */
  function ShowInts(l: seq<int>): string {
    "[" + Joined(Printed(l)) + "]"
  }

  ghost predicate HashLaws(k: Primitives) {
    && IsHash(k.sha256)
    && (forall key, data :: |k.hmac(key, data)| == 32)
    && (forall s, t :: k.utf8(s) == k.utf8(t) ==> s == t)
  }

  /** Printers of the serialiser emit JSON text, and its parsers read back what it printed. */
  ghost predicate TextLaws(k: Primitives) {
    && (forall s :: IsJson(k.quote(s)) && k.parseString(k.quote(s)) == Some(s))
    && (forall n {:trigger k.parseInt(ShowInt(n))} :: IsI64(n) ==> k.parseInt(ShowInt(n)) == Some(n))
    && (forall l {:trigger k.parseInts(ShowInts(l))} ::
          (forall i :: 0 <= i < |l| ==> IsI64(l[i])) ==> k.parseInts(ShowInts(l)) == Some(l))
    && (forall j :: IsJson(k.showJwk(j)) && k.parseJwk(k.showJwk(j)) == Some(j))
    && (forall i :: IsJson(k.showInfo(i)))
    && (forall b :: k.unb64(k.b64(b)) == Some(b))
    && k.unb64("") == Some([])
  }

  /** ECDH: two key pairs of one suite reach the same secret from each other's public key. */
  ghost predicate KeyLaws(k: Primitives) {
    forall s, a, b ::
      var za := k.sharedSecret(KeyPair(s, a), k.publicKey(KeyPair(s, b)));
      za.Some? && za == k.sharedSecret(KeyPair(s, b), k.publicKey(KeyPair(s, a)))
  }

  /** A PairingInfo whose numbers fit their fields survives printing and parsing. */
  ghost predicate InfoLaws(k: Primitives) {
    forall i: PairingInfo :: i.v < 0x1_0000_0000 && i.admissionEpoch < 0x1_0000_0000_0000_0000 ==>
      k.parseInfo(k.showInfo(i)) == Some(i)
  }

  ghost predicate Lawful(k: Primitives) {
    HashLaws(k) && TextLaws(k) && KeyLaws(k) && InfoLaws(k)
  }

  // ---- printed integers are JSON ----

  lemma ShowIntIsJson(n: int)
    ensures IsJson(ShowInt(n))
  {
    assert WellFormed(Number(ShowInt(n)));
    assert Render(Number(ShowInt(n))) == ShowInt(n);
  }

  function IntItems(l: seq<int>): Items {
    if |l| == 0 then NoItems else Items("", Number(ShowInt(l[0])), "", IntItems(l[1..]))
  }

  lemma {:induction false} IntItemsRender(l: seq<int>)
    ensures ItemsOk(IntItems(l))
    ensures RenderItems(IntItems(l)) == Joined(Printed(l))
  {
    if |l| > 0 {
      IntItemsRender(l[1..]);
      var shown := seq(|l|, i requires 0 <= i < |l| => ShowInt(l[i]));
      assert shown[1..] == seq(|l[1..]|, i requires 0 <= i < |l[1..]| => ShowInt(l[1..][i]));
      assert WellFormed(Number(ShowInt(l[0])));
    }
  }

  lemma ShowIntsIsJson(l: seq<int>)
    ensures IsJson(ShowInts(l))
  {
    IntItemsRender(l);
    var v := Array("", IntItems(l));
    assert WellFormed(v);
    assert Render(v) == ShowInts(l);
  }

  // ---- the uses the protocol makes of the primitives ----

  /** HMAC-SHA256 over the association array. */
  function Mac(k: Primitives, key: Bytes, lead: int, m: MacInputs): Bytes {
    k.hmac(key, k.utf8(ArrayText(ShowInt(lead), m)))
  }

  method ComputeMac(k: Primitives, key: Bytes, lead: int, m: MacInputs) returns (mac: Bytes)
    ensures mac == Mac(k, key, lead, m)
  {
    var text := NoobArray(ShowInt(lead), m);
    mac := k.hmac(key, k.utf8(text));
  }

  /** The first 16 octets of the SHA-256 of `["NoobId",<noob>]`, `noobJson` being the quoted base64url Noob. */
  function NoobIdOf(k: Primitives, noobJson: string): (id: Bytes)
    requires IsHash(k.sha256)
    ensures |id| == 16
  {
    k.sha256(k.utf8("[\"NoobId\"," + noobJson + "]"))[..16]
  }

  method ComputeNoobId(k: Primitives, noobJson: string) returns (id: Bytes)
    requires IsHash(k.sha256)
    ensures id == NoobIdOf(k, noobJson)
  {
    var arr := "[\"NoobId\",";
    arr := arr + noobJson;
    arr := arr + "]";
    var full := k.sha256(k.utf8(arr));
    id := full[..16];
  }

  /** HMAC takes these two computations apart, or they had the same key and the same array. */
  ghost predicate NoMacCollision(k: Primitives, key: Bytes, a: MacInputs, key': Bytes, b: MacInputs, lead: int) {
    Mac(k, key, lead, a) == Mac(k, key', lead, b) ==>
      key == key' && k.utf8(ArrayText(ShowInt(lead), a)) == k.utf8(ArrayText(ShowInt(lead), b))
  }

  /** Without a collision, equal MACs mean equal keys and the same fifteen fields. */
  lemma EqualMacsAgree(k: Primitives, key: Bytes, a: MacInputs, key': Bytes, b: MacInputs, lead: int)
    requires HashLaws(k) && InputsOk(a) && InputsOk(b)
    requires NoMacCollision(k, key, a, key', b, lead)
    requires Mac(k, key, lead, a) == Mac(k, key', lead, b)
    ensures key == key' && SameFields(a, b)
  {
    ShowIntIsJson(lead);
    JsonIsElement(ShowInt(lead));
    ArrayUnambiguous(ShowInt(lead), a, ShowInt(lead), b);
  }

  /** A nonempty octet string has a nonempty base64url text. */
  lemma B64Nonempty(k: Primitives, b: Bytes)
    requires TextLaws(k) && |b| > 0
    ensures k.b64(b) != ""
  {
    assert k.unb64(k.b64(b)) == Some(b);
  }

  // ---- in full ----

  /** A MAC is the HMAC, under the key, of the printed lead and the fifteen fields in their places. */
  lemma MacInFull(k: Primitives, key: Bytes, lead: int, m: MacInputs) returns (e: seq<string>)
    ensures InPlace(e, ShowInt(lead), m) && Mac(k, key, lead, m) == k.hmac(key, k.utf8(Bracketed(e)))
  {
    e := ArrayInFull(ShowInt(lead), m);
  }

  lemma NoobIdIsElement()
    ensures IsElement("\"NoobId\"")
  {
    var chars := [Plain('N'), Plain('o'), Plain('o'), Plain('b'), Plain('I'), Plain('d')];
    TextPasses(0, chars);
    assert RenderChars(chars) == "NoobId" by {
      assert chars[1..][1..][1..] == [Plain('b'), Plain('I'), Plain('d')];
      assert RenderChars([Plain('b'), Plain('I'), Plain('d')]) == "bId";
    }
  }

  /** A NoobId is the first half of the hash of an array of the word `NoobId` and the Noob. */
  lemma NoobIdInFull(k: Primitives, noobJson: string) returns (text: string)
    requires IsHash(k.sha256) && IsElement(noobJson)
    ensures NoobIdOf(k, noobJson) == k.sha256(k.utf8(text))[..16]
    ensures |text| == 11 + |noobJson| && Elements(text) == ["\"NoobId\"", noobJson]
  {
    text := "[\"NoobId\"," + noobJson + "]";
    NoobIdIsElement();
    SplitJoined(["\"NoobId\"", noobJson]);
    assert ["\"NoobId\"", noobJson][1..] == [noobJson];
    assert Joined(["\"NoobId\"", noobJson]) == "\"NoobId\"," + noobJson;
    assert text[1..|text| - 1] == "\"NoobId\"," + noobJson;
  }
}
