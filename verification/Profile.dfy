/**
 * A node's own identity (crates/pair-trust/src/identity.rs) and the PairingInfo that it shows of itself
 * (crates/pair-cluster/src/node.rs).
 */
module Profile {
  import opened Octets
  import opened Primitives
  import opened Pem
  import opened Info
  import PinStore

  datatype Identity = Identity(nodeUuid: string, certDer: Bytes, certPem: string)

  datatype NodeProfile = NodeProfile(
    identity: Identity, name: string, clusterId: string, clusterFriendlyName: string, admissionEpoch: nat,
    advertisedAddr: string)

  /** `from_pem`, its private key aside: the UUID is read from the certificate. */
  function IdentityFromPem(k: Primitives, certPem: string): Result<Identity> {
    match PemToDer(certPem)
    case None => Err("no CERTIFICATE block")
    case Some(der) =>
      match k.nodeUuid(der)
      case None => Err("cert missing urn:nvpair:node SAN")
      case Some(id) => Ok(Identity(id, der, certPem))
  }

  function InfoOf(k: Primitives, p: NodeProfile): PairingInfo {
    PairingInfo(PAIRING_INFO_VERSION, p.identity.nodeUuid, PinStore.Fingerprint(k, p.identity.certDer), p.name,
                p.clusterId, if p.admissionEpoch == 0 then 1 else p.admissionEpoch, p.clusterFriendlyName,
                p.advertisedAddr, p.identity.certPem)
  }

  /** The PEM is that of the certificate, which carries the UUID. */
  predicate Certified(k: Primitives, i: Identity) {
    PemToDer(i.certPem) == Some(i.certDer) && k.nodeUuid(i.certDer) == Some(i.nodeUuid)
  }

  /** An identity that loads is certified, and any certified one is what its PEM loads as. */
  lemma LoadedIsCertified(k: Primitives, i: Identity)
    ensures IdentityFromPem(k, i.certPem) == Ok(i) <==> Certified(k, i)
  {
  }

  /** What a certified node with a UUID shows of itself is bound to its certificate. */
  lemma ProfileIsBound(k: Primitives, p: NodeProfile)
    requires Certified(k, p.identity) && p.identity.nodeUuid != ""
    ensures Bound(k, InfoOf(k, p), p.identity.certDer)
  {
  }

  /**
   * The other side reads it, as it was shown, if and only if the node has a UUID and the PEM a certificate that
   * carries it.
   */
  lemma ProfileParsesExactly(k: Primitives, p: NodeProfile)
    requires InfoLaws(k) && p.admissionEpoch < 0x1_0000_0000_0000_0000
    ensures ParsePairingInfo(k, k.showInfo(InfoOf(k, p))).Ok? <==>
              p.identity.nodeUuid != "" && exists der :: Certified(k, p.identity.(certDer := der))
    ensures Certified(k, p.identity) && p.identity.nodeUuid != "" ==>
              ParsePairingInfo(k, k.showInfo(InfoOf(k, p))) == Ok(PeerIdentity(InfoOf(k, p), p.identity.certDer))
  {
    hide PemToDer, PinStore.Fingerprint;
    assert k.parseInfo(k.showInfo(InfoOf(k, p))) == Some(InfoOf(k, p));
    if PemToDer(p.identity.certPem).Some? {
      var der := PemToDer(p.identity.certPem).value;
      assert p.identity.(certDer := der).certDer == der;
      assert k.nodeUuid(der) == Some(p.identity.nodeUuid) ==> Certified(k, p.identity.(certDer := der));
    }
  }
}
