/** Reading the peer's PairingInfo and binding it to its certificate (crates/pair-cluster/src/info.rs). */
module Info {
  import opened Octets
  import opened Primitives
  import opened Pem

  const PAIRING_INFO_VERSION := 2
  const LEGACY_ADMISSION_EPOCH := 1

  /** The other side's identity: its PairingInfo and the DER of the certificate inside. */
  datatype PeerIdentity = PeerIdentity(info: PairingInfo, certDer: Bytes)

  /** A completed pairing, as handed to the trust sink. */
  datatype Paired = Paired(peer: PairingInfo, peerCertDer: Bytes, kz: Bytes, cryptosuitep: int)

  /** The info names the node its certificate certifies, and an admission. */
  predicate Bound(k: Primitives, info: PairingInfo, der: Bytes) {
    && info.nodeUuid != "" && info.admissionEpoch != 0
    && PemToDer(info.cert) == Some(der) && k.nodeUuid(der) == Some(info.nodeUuid)
  }

  function ParsePairingInfo(k: Primitives, raw: string): (r: Result<PeerIdentity>)
    ensures r.Ok? ==> Bound(k, r.value.info, r.value.certDer)
  {
    match k.parseInfo(raw)
    case None => Err("decode PairingInfo")
    case Some(pi) =>
      if pi.nodeUuid == "" then Err("PairingInfo missing nodeUuid")
      else if PemToDer(pi.cert).None? then Err("PairingInfo has no CERTIFICATE block")
      else
        var der := PemToDer(pi.cert).value;
        if k.nodeUuid(der).None? then Err("PairingInfo cert has no node UUID")
        else if k.nodeUuid(der).value != pi.nodeUuid then Err("PairingInfo cert principal != nodeUuid")
        else if pi.v >= PAIRING_INFO_VERSION && pi.admissionEpoch == 0 then Err("PairingInfo missing admissionEpoch")
        else if pi.admissionEpoch == 0 then Ok(PeerIdentity(pi.(admissionEpoch := LEGACY_ADMISSION_EPOCH), der))
        else Ok(PeerIdentity(pi, der))
  }

  /** A bound info that was printed is read back as it was. */
  lemma PrintedInfoParses(k: Primitives, info: PairingInfo, der: Bytes)
    requires InfoLaws(k) && Bound(k, info, der)
    requires info.v < 0x1_0000_0000 && info.admissionEpoch < 0x1_0000_0000_0000_0000
    ensures ParsePairingInfo(k, k.showInfo(info)) == Ok(PeerIdentity(info, der))
  {
    hide PemToDer;
    assert k.parseInfo(k.showInfo(info)) == Some(info);
  }

  /**
   * Which texts are accepted: those that decode to a record with a UUID, a certificate that carries it, and an
   * admission epoch unless they are of the first version, for which a missing epoch counts as one.
   */
  lemma AcceptedExactly(k: Primitives, raw: string)
    ensures match k.parseInfo(raw)
            case None => ParsePairingInfo(k, raw).Err?
            case Some(pi) =>
              && (ParsePairingInfo(k, raw).Ok? <==>
                    && pi.nodeUuid != ""
                    && (exists der :: PemToDer(pi.cert) == Some(der) && k.nodeUuid(der) == Some(pi.nodeUuid))
                    && (pi.v < 2 || pi.admissionEpoch != 0))
              && (ParsePairingInfo(k, raw).Ok? ==>
                    var id := ParsePairingInfo(k, raw).value;
                    && PemToDer(pi.cert) == Some(id.certDer)
                    && id.info == pi.(admissionEpoch := if pi.admissionEpoch == 0 then 1 else pi.admissionEpoch))
  {
    hide PemToDer;
  }
}
