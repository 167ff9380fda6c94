/** The set of pinned peer certificates, indexed by node UUID (crates/pair-trust/src/pin.rs). */
module PinStore {
  import opened Octets
  import opened Primitives

  datatype PinnedPeer = PinnedPeer(nodeUuid: string, certDer: Bytes, fingerprint: string)

  type Pins = map<string, PinnedPeer>

  function HexDigit(d: nat): char
    requires d < 16
  {
    if d < 10 then '0' + d as char else 'a' + (d - 10) as char
  }

  function Hex(b: Bytes): string {
    if |b| == 0 then "" else [HexDigit(b[0] / 16), HexDigit(b[0] % 16)] + Hex(b[1..])
  }

  function Fingerprint(k: Primitives, der: Bytes): string {
    "sha256:" + Hex(k.sha256(der))
  }

  /** Pinning files the certificate under its own UUID; a certificate without one is refused. */
  function Pin(k: Primitives, pins: Pins, der: Bytes): Pins {
    match k.nodeUuid(der)
    case Some(id) => pins[id := PinnedPeer(id, der, Fingerprint(k, der))]
    case None => pins
  }

  /** Every entry is filed under the UUID of the certificate it holds. */
  ghost predicate PinsOk(k: Primitives, pins: Pins) {
    forall id :: id in pins ==>
      pins[id].nodeUuid == id && k.nodeUuid(pins[id].certDer) == Some(id)
      && pins[id].fingerprint == Fingerprint(k, pins[id].certDer)
  }

  /** What the linear scan of `is_pinned` looks for. */
  predicate Scanned(pins: Pins, der: Bytes) {
    exists id :: id in pins && pins[id].certDer == der
  }

  class PeerPinStore {
    var byUuid: Pins

    constructor ()
      ensures byUuid == map[]
    {
      byUuid := map[];
    }

    ghost predicate Valid(k: Primitives)
      reads this
    {
      PinsOk(k, byUuid)
    }

    method PinCert(k: Primitives, der: Bytes) returns (r: Result<string>)
      requires Valid(k)
      modifies this
      ensures Valid(k) && byUuid == Pin(k, old(byUuid), der)
      ensures r.Ok? <==> k.nodeUuid(der).Some?
      ensures r.Ok? ==> Some(r.value) == k.nodeUuid(der)
    {
      var id := k.nodeUuid(der);
      if id.None? {
        return Err("refusing to pin: cert has no urn:nvpair:node SAN");
      }
      byUuid := byUuid[id.value := PinnedPeer(id.value, der, Fingerprint(k, der))];
      r := Ok(id.value);
    }

    /** The scan over all values decides by the certificate alone, and agrees with the index. */
    method IsPinned(k: Primitives, der: Bytes) returns (found: bool)
      requires Valid(k)
      ensures found <==> Scanned(byUuid, der)
      ensures found <==>
                match k.nodeUuid(der)
                case Some(id) => id in byUuid && byUuid[id].certDer == der
                case None => false
    {
      var left := byUuid.Keys;
      while left != {}
        invariant left <= byUuid.Keys
        invariant forall id :: id in byUuid && id !in left ==> byUuid[id].certDer != der
        decreases left
      {
        var id :| id in left;
        if byUuid[id].certDer == der {
          return true;
        }
        left := left - {id};
      }
      return false;
    }

    method Remove(k: Primitives, nodeUuid: string) returns (p: Option<PinnedPeer>)
      requires Valid(k)
      modifies this
      ensures Valid(k) && byUuid == old(byUuid) - {nodeUuid}
      ensures p == if nodeUuid in old(byUuid) then Some(old(byUuid)[nodeUuid]) else None
    {
      p := if nodeUuid in byUuid then Some(byUuid[nodeUuid]) else None;
      byUuid := byUuid - {nodeUuid};
    }
  }

  // ---- any run of pins and removals ----

  datatype Op = PinOp(der: Bytes) | RemoveOp(nodeUuid: string)

  function Run(k: Primitives, ops: seq<Op>): Pins {
    if |ops| == 0 then map[]
    else
      var before := Run(k, ops[..|ops| - 1]);
      match ops[|ops| - 1]
      case PinOp(der) => Pin(k, before, der)
      case RemoveOp(id) => before - {id}
  }

  /** The last operation that touched this UUID: a pin of a certificate naming it, or its removal. */
  function LastOn(k: Primitives, ops: seq<Op>, id: string): Option<Op> {
    if |ops| == 0 then None
    else
      var last := ops[|ops| - 1];
      if last == RemoveOp(id) || (last.PinOp? && k.nodeUuid(last.der) == Some(id)) then Some(last)
      else LastOn(k, ops[..|ops| - 1], id)
  }

  lemma {:induction false} RunHolds(k: Primitives, ops: seq<Op>, id: string)
    ensures PinsOk(k, Run(k, ops))
    ensures id in Run(k, ops) <==> LastOn(k, ops, id).Some? && LastOn(k, ops, id).value.PinOp?
    ensures id in Run(k, ops) ==> Run(k, ops)[id].certDer == LastOn(k, ops, id).value.der
  {
    if |ops| > 0 {
      RunHolds(k, ops[..|ops| - 1], id);
    }
  }

  /** After any run, the scan finds exactly the certificates that the last operation on their UUID pinned. */
  lemma ScanMeansLastPinned(k: Primitives, ops: seq<Op>, der: Bytes)
    ensures Scanned(Run(k, ops), der) <==>
              k.nodeUuid(der).Some? && LastOn(k, ops, k.nodeUuid(der).value) == Some(PinOp(der))
  {
    RunHolds(k, ops, "");
    if k.nodeUuid(der).Some? {
      RunHolds(k, ops, k.nodeUuid(der).value);
    }
  }

  // ---- in full ----

  /** Two lower-case hexadecimal digits an octet, the high half first. */
  lemma {:induction false} HexInFull(b: Bytes, i: nat)
    requires i < |b|
    ensures |Hex(b)| == 2 * |b|
    ensures Hex(b)[2 * i] == "0123456789abcdef"[b[i] / 16] && Hex(b)[2 * i + 1] == "0123456789abcdef"[b[i] % 16]
  {
    HexDigitInFull(b[0] / 16);
    HexDigitInFull(b[0] % 16);
    HexLength(b);
    if i > 0 {
      HexInFull(b[1..], i - 1);
      assert Hex(b)[2..] == Hex(b[1..]) && b[1..][i - 1] == b[i];
    }
  }

  lemma {:induction false} HexLength(b: Bytes)
    ensures |Hex(b)| == 2 * |b|
  {
    if |b| > 0 {
      HexLength(b[1..]);
    }
  }

  lemma HexDigitInFull(d: nat)
    requires d < 16
    ensures HexDigit(d) == "0123456789abcdef"[d]
  {
    var t := "0123456789abcdef";
    assert t[0] == '0' && t[9] == '9' && t[10] == 'a' && t[15] == 'f';
  }

  /** A fingerprint is the word `sha256`, a colon and the certificate's hash in hexadecimal. */
  lemma FingerprintInFull(k: Primitives, der: Bytes, i: nat)
    requires i < |k.sha256(der)|
    ensures var f, b := Fingerprint(k, der), k.sha256(der);
      && |f| == 7 + 2 * |b| && f[..7] == "sha256:"
      && f[7 + 2 * i] == "0123456789abcdef"[b[i] / 16] && f[8 + 2 * i] == "0123456789abcdef"[b[i] % 16]
  {
    HexInFull(k.sha256(der), i);
    hide Hex;
    assert Fingerprint(k, der)[7..] == Hex(k.sha256(der));
  }
}
