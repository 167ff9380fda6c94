/**
 * The two exchanges message by message: what one server and one peer become when each message reaches the
 * other side as it was sent.
 */
module Exchange {
  import opened Octets
  import opened Decimal
  import opened Negotiation
  import opened Kdf
  import opened MacArray
  import opened Primitives
  import opened Protocol

  // ---- the Initial Exchange ----

  /** What a server made by `NewServer(info)` never changes, and what it has not yet received at Negotiation. */
  predicate ServerBegun(s: ServerState, info: string) {
    && s.versions == [1] && s.cryptosuites == [2, 1] && s.dirs == 2 && s.serverInfo == info
    && s.m.noob == [] && s.m.nai == DEFAULT_NAI && s.m.peerId != "" && s.state == Unregistered
    && s.m.noobId == ZEROS_16 && s.m.keym.None? && s.assoc.None?
  }

  function OfferedInputs(k: Primitives, peerId: string, info: string): MacInputs {
    NO_INPUTS.(vers := ShowInts([1]), peerId := k.quote(peerId), cryptosuites := ShowInts([2, 1]),
               dirs := ShowInt(2), serverInfo := info)
  }

  /** The server has sent its offer. */
  predicate Offered(k: Primitives, s: ServerState, msg: Wire, info: string) {
    && ServerBegun(s, info) && s.m.inp == OfferedInputs(k, s.m.peerId, info)
    && msg == NO_WIRE.(type_ := Some(2), vers := Some(s.m.inp.vers), peerId := Some(s.m.inp.peerId),
                       cryptosuites := Some(s.m.inp.cryptosuites), dirs := Some(s.m.inp.dirs), serverInfo := Some(info))
  }

  function AgreedInputs(k: Primitives, peerId: string, info: string, peerInfo: string): MacInputs {
    OfferedInputs(k, peerId, info).(verp := ShowInt(1), cryptosuitep := ShowInt(2), dirp := ShowInt(2),
                                    peerInfo := peerInfo, nai := k.quote(DEFAULT_NAI))
  }

  /** The server has accepted the peer's choice and sent its key; the peer has made that choice. */
  predicate Keyed(k: Primitives, s: ServerState, p: PeerState, msg: Wire, info: string, peerInfo: string,
                  secret: Bytes) {
    && ServerBegun(s, info) && s.csp == 2 && s.dirp == 2
    && s.m.keypair == Some(KeyPair(P256, secret))
    && s.m.inp == AgreedInputs(k, s.m.peerId, info, peerInfo).(
                    pks := k.showJwk(k.publicKey(KeyPair(P256, secret))), ns := Quoted(k, s.m.ns))
    && msg == NO_WIRE.(type_ := Some(3), peerId := Some(k.quote(s.m.peerId)), pks := Some(s.m.inp.pks),
                       ns := Some(s.m.inp.ns))
    && p == NewPeer(peerInfo).(csp := 2, dirp := 2, m := NewPeer(peerInfo).m.(
              peerId := s.m.peerId, suite := Some(P256), inp := AgreedInputs(k, s.m.peerId, info, peerInfo)))
  }

  /** Both hold the same secret, nonces and MAC inputs, apart from the Noob. */
  predicate Linked(s: ServerState, p: PeerState) {
    && s.m.z == p.m.z && s.m.ns == p.m.ns && s.m.np == p.m.np
    && s.m.peerId == p.m.peerId && s.m.peerId != ""
    && s.m.inp.(noob := "") == p.m.inp.(noob := "")
    && s.csp == p.csp == 2 && s.dirp == p.dirp == 2
  }

  // ---- which handler takes a message ----

  predicate Ordinary(w: Wire) {
    w.eap.None? && w.errorCode.None?
  }

  lemma PeerDispatch(k: Primitives, p: PeerState, w: Wire, f: Fresh)
    requires HashLaws(k) && Ordinary(w)
    ensures w.type_ == Some(1) ==> PeerReceive(k, p, Message(w), f) == PeerStep(p, Sending(PeerDiscovery(k, p)))
    ensures w.type_ == Some(2) ==> PeerReceive(k, p, Message(w), f) == PeerNegotiation(k, p, w)
    ensures w.type_ == Some(3) ==> PeerReceive(k, p, Message(w), f) == PeerKeyExchange(k, p, w, f)
    ensures w.type_ == Some(5) ==> PeerReceive(k, p, Message(w), f) == PeerStep(p, PeerNoobId(k, p))
    ensures w.type_ == Some(6) ==> PeerReceive(k, p, Message(w), f) == PeerCompletion(k, p, w)
  {
    hide PeerDiscovery, PeerNegotiation, PeerKeyExchange, PeerNoobId, PeerCompletion;
  }

  lemma ServerDispatch(k: Primitives, s: ServerState, w: Wire, f: Fresh)
    requires HashLaws(k) && Ordinary(w)
    ensures w.type_ == Some(1) ==> ServerReceive(k, s, Message(w), f) == ServerDiscovery(k, s, w, f)
    ensures w.type_ == Some(2) ==> ServerReceive(k, s, Message(w), f) == ServerNegotiation(k, s, w, f)
    ensures w.type_ == Some(3) ==> ServerReceive(k, s, Message(w), f) == ServerKeyExchange(k, s, w)
    ensures w.type_ == Some(5) ==> ServerReceive(k, s, Message(w), f) == ServerNoobId(k, s, w)
    ensures w.type_ == Some(6) ==> ServerReceive(k, s, Message(w), f) == ServerCompletion(k, s, w)
  {
    hide ServerDiscovery, ServerNegotiation, ServerKeyExchange, ServerNoobId, ServerCompletion;
  }

  // ---- what the printed fields are read back as ----

  lemma OfferReadBack(k: Primitives)
    requires TextLaws(k)
    ensures k.parseInts(ShowInts([1])) == Some([1]) && k.parseInts(ShowInts([2, 1])) == Some([2, 1])
    ensures k.parseInt(ShowInt(1)) == Some(1) && k.parseInt(ShowInt(2)) == Some(2)
  {
  }

  lemma TextReadBack(k: Primitives, s: string, b: Bytes, j: Jwk)
    requires TextLaws(k)
    ensures k.parseString(k.quote(s)) == Some(s)
    ensures ParseBytes(k, Some(Quoted(k, b))) == Some(b)
    ensures ParseKey(k, Some(k.showJwk(j))) == Some(j)
    ensures ParseStr(k, Some(Quoted(k, b))) == Some(k.b64(b))
  {
  }

  lemma DefaultChoices()
    ensures MaxCommon([1], [1]) == Some(1)
    ensures FirstSupported([2, 1], [1, 2]) == Some(2)
    ensures ChooseDir(2, 2) == Some(2)
  {
    assert MaxCommon([1], [1]).Some?;
    assert Usable(2, [1, 2]);
  }

  // ---- Type 1 ----

  /** A new server that has noted the peer's NAI. */
  function GreetedServer(info: string): ServerState {
    NewServer(info).(m := NO_METHOD.(nai := DEFAULT_NAI))
  }

  lemma ServerGreets(k: Primitives, info: string, peerInfo: string, f: Fresh)
    requires HashLaws(k) && TextLaws(k)
    ensures ServerDiscovery(k, NewServer(info), PeerDiscovery(k, NewPeer(peerInfo)), f) ==
              BuildNegotiation(k, GreetedServer(info), f)
  {
    hide TextLaws, HashLaws, BuildNegotiation, StartCompletion;
    TextReadBack(k, DEFAULT_NAI, [], Jwk("", "", "", None));
  }

  lemma OfferBuilt(k: Primitives, info: string, f: Fresh) returns (msg: Wire)
    requires TextLaws(k) && FreshOk(f)
    ensures var step := BuildNegotiation(k, GreetedServer(info), f);
      step.r == Sending(msg) && Offered(k, step.s, msg, info)
  {
    hide TextLaws, ShowInts, ShowInt;
    B64Nonempty(k, f.peerId);
    msg := BuildNegotiation(k, GreetedServer(info), f).r.outcome.send.value;
  }

  /** The server answers a new peer's discovery with its offer. */
  lemma ServerOffers(k: Primitives, info: string, peerInfo: string, f: Fresh) returns (msg: Wire)
    requires HashLaws(k) && TextLaws(k) && FreshOk(f)
    ensures Ordinary(PeerDiscovery(k, NewPeer(peerInfo))) && PeerDiscovery(k, NewPeer(peerInfo)).type_ == Some(1)
    ensures var step := ServerDiscovery(k, NewServer(info), PeerDiscovery(k, NewPeer(peerInfo)), f);
      step.r == Sending(msg) && Offered(k, step.s, msg, info)
  {
    hide ServerDiscovery, BuildNegotiation, Offered;
    ServerGreets(k, info, peerInfo, f);
    msg := OfferBuilt(k, info, f);
  }

  // ---- Type 2 ----

  function Choice(k: Primitives, peerId: string, peerInfo: string): Wire {
    NO_WIRE.(type_ := Some(2), verp := Some(ShowInt(1)), peerId := Some(k.quote(peerId)),
             cryptosuitep := Some(ShowInt(2)), dirp := Some(ShowInt(2)), peerInfo := Some(peerInfo))
  }

  function ChoosingPeer(k: Primitives, peerId: string, info: string, peerInfo: string): PeerState {
    var p := NewPeer(peerInfo);
    p.(csp := 2, dirp := 2, m := p.m.(peerId := peerId, suite := Some(P256),
                                      inp := AgreedInputs(k, peerId, info, peerInfo)))
  }

  /** A new peer answers the offer with its choice. */
  lemma PeerChooses(k: Primitives, s: ServerState, msg: Wire, info: string, peerInfo: string)
    requires TextLaws(k) && Offered(k, s, msg, info) && info != ""
    ensures PeerNegotiation(k, NewPeer(peerInfo), msg) ==
              PeerStep(ChoosingPeer(k, s.m.peerId, info, peerInfo), Sending(Choice(k, s.m.peerId, peerInfo)))
  {
    hide TextLaws, ShowInts, ShowInt, MaxCommon, FirstSupported, ChooseDir;
    OfferReadBack(k);
    DefaultChoices();
    TextReadBack(k, s.m.peerId, [], Jwk("", "", "", None));
    var p := NewPeer(peerInfo);
    assert ParseStr(k, msg.peerId) == Some(s.m.peerId);
    assert MaxCommon(ParseInts(k, msg.vers), p.versions) == Some(1);
    assert FirstSupported(ParseInts(k, msg.cryptosuites), p.cryptosuites) == Some(2);
    assert ChooseDir(OrElse(ParseInt(k, msg.dirs), -1), p.preferDir) == Some(2);
    hide ParseStr, ParseInts, ParseInt;
  }

  /** The server with the accepted choice, before it makes its key. */
  function ChosenServer(k: Primitives, s: ServerState, info: string, peerInfo: string): ServerState {
    s.(csp := 2, dirp := 2, m := s.m.(suite := Some(P256), inp := AgreedInputs(k, s.m.peerId, info, peerInfo)))
  }

  lemma ServerAccepts(k: Primitives, s: ServerState, msg: Wire, info: string, peerInfo: string, f: Fresh)
    requires TextLaws(k) && Offered(k, s, msg, info) && peerInfo != ""
    ensures ServerNegotiation(k, s, Choice(k, s.m.peerId, peerInfo), f) ==
              BuildKeyExchange(k, ChosenServer(k, s, info, peerInfo), f)
  {
    hide TextLaws, ShowInts, ShowInt, BuildKeyExchange;
    OfferReadBack(k);
    TextReadBack(k, s.m.peerId, [], Jwk("", "", "", None));
    var w := Choice(k, s.m.peerId, peerInfo);
    assert PeerIdOk(k, s, w) && ParseInt(k, w.verp) == Some(1) && ParseInt(k, w.cryptosuitep) == Some(2)
        && ParseInt(k, w.dirp) == Some(2);
    hide PeerIdOk, ParseInt;
  }

  lemma KeyBuilt(k: Primitives, s: ServerState, msg: Wire, info: string, peerInfo: string, f: Fresh) returns (key: Wire)
    requires Offered(k, s, msg, info)
    ensures var step := BuildKeyExchange(k, ChosenServer(k, s, info, peerInfo), f);
      step.r == Sending(key)
      && Keyed(k, step.s, ChoosingPeer(k, s.m.peerId, info, peerInfo), key, info, peerInfo, f.secret)
  {
    hide ShowInts, ShowInt;
    key := BuildKeyExchange(k, ChosenServer(k, s, info, peerInfo), f).r.outcome.send.value;
  }

  /** The server accepts that choice and sends its key. */
  lemma ServerKeys(k: Primitives, s: ServerState, msg: Wire, info: string, peerInfo: string, f: Fresh)
    returns (key: Wire)
    requires TextLaws(k) && Offered(k, s, msg, info) && peerInfo != ""
    ensures var step := ServerNegotiation(k, s, Choice(k, s.m.peerId, peerInfo), f);
      step.r == Sending(key)
      && Keyed(k, step.s, ChoosingPeer(k, s.m.peerId, info, peerInfo), key, info, peerInfo, f.secret)
  {
    hide TextLaws, ServerNegotiation, BuildKeyExchange, Offered, Keyed;
    ServerAccepts(k, s, msg, info, peerInfo, f);
    key := KeyBuilt(k, s, msg, info, peerInfo, f);
  }

  // ---- Type 3 ----

  /** The peer computes the secret, answers with its own key and waits. */
  lemma PeerKeys(k: Primitives, s: ServerState, p: PeerState, msg: Wire, info: string, peerInfo: string,
                 secret: Bytes, f: Fresh) returns (key: Wire)
    requires TextLaws(k) && KeyLaws(k) && Keyed(k, s, p, msg, info, peerInfo, secret)
    ensures var step := PeerKeyExchange(k, p, msg, f);
      && step.r == Sending(key) && step.p.state == Waiting && step.p.m.noob == [] && step.p.m.keym.None?
      && step.p.m.peerId == s.m.peerId && step.p.m.ns == s.m.ns && step.p.m.np == f.nonce
      && Some(step.p.m.z) == k.sharedSecret(KeyPair(P256, f.secret), k.publicKey(KeyPair(P256, secret)))
      && step.p.m.inp == s.m.inp.(pkp := k.showJwk(k.publicKey(KeyPair(P256, f.secret))), np := Quoted(k, f.nonce))
      && step.p.csp == 2 && step.p.dirp == 2 && step.p.assoc.None?
      && key == NO_WIRE.(type_ := Some(3), peerId := Some(k.quote(s.m.peerId)), pkp := Some(step.p.m.inp.pkp),
                         np := Some(step.p.m.inp.np))
  {
    hide TextLaws, ShowInts, ShowInt;
    TextReadBack(k, "", s.m.ns, k.publicKey(KeyPair(P256, secret)));
    key := PeerKeyExchange(k, p, msg, f).r.outcome.send.value;
  }

  /** The server computes the same secret and waits; both are linked. */
  lemma ServerWaits(k: Primitives, s: ServerState, p: PeerState, msg: Wire, info: string, peerInfo: string,
                    secret: Bytes, f: Fresh)
    requires TextLaws(k) && KeyLaws(k) && Keyed(k, s, p, msg, info, peerInfo, secret)
    ensures var pstep := PeerKeyExchange(k, p, msg, f);
      && pstep.r.Reacted? && pstep.r.outcome.send.Some?
      && var step := ServerKeyExchange(k, s, pstep.r.outcome.send.value);
         && step.r == DoneFailure() && step.s.state == Waiting && step.s.m.noob == [] && step.s.dirs == 2
         && step.s.assoc.None? && step.s.m.keym.None?
         && Linked(step.s, pstep.p) && step.s.m.inp.serverInfo == info && step.s.m.inp.peerInfo == peerInfo
  {
    hide TextLaws, ShowInts, ShowInt, PeerKeyExchange;
    var key := PeerKeys(k, s, p, msg, info, peerInfo, secret, f);
    TextReadBack(k, s.m.peerId, f.nonce, k.publicKey(KeyPair(P256, f.secret)));
    var z := k.sharedSecret(KeyPair(P256, secret), k.publicKey(KeyPair(P256, f.secret)));
    assert z.Some? && z == k.sharedSecret(KeyPair(P256, f.secret), k.publicKey(KeyPair(P256, secret)));
  }

  // ---- the Completion Exchange ----

  /** The method state holds this Noob, with its NoobId and its MAC input. */
  ghost predicate HasNoob(k: Primitives, m: Method, noob: Bytes)
    requires IsHash(k.sha256)
  {
    |noob| == 16 && m.noob == noob && m.noobId == NoobIdOf(k, Quoted(k, noob)) && m.inp.noob == Quoted(k, noob)
  }

  /** The server has its Noob, the peer has the one it was fed. */
  ghost predicate NoobsSet(k: Primitives, s: ServerState, p: PeerState, minted: Bytes, fed: Bytes)
    requires IsHash(k.sha256)
  {
    HasNoob(k, s.m, minted) && HasNoob(k, p.m, fed)
  }

  /** Ready for Completion: linked, server at Waiting, peer with the OOB received. */
  ghost predicate Ready(k: Primitives, s: ServerState, p: PeerState, minted: Bytes, fed: Bytes)
    requires IsHash(k.sha256)
  {
    Linked(s, p) && NoobsSet(k, s, p, minted, fed) && s.state == Waiting && p.state == OobReceived
  }

  /** The server's Type 6 and the peer's. */
  function MacsWire(k: Primitives, m: Method): Wire
    requires IsHash(k.sha256)
  {
    NO_WIRE.(type_ := Some(6), peerId := Some(k.quote(m.peerId)), noobId := Some(Quoted(k, m.noobId)),
             macs := Some(Quoted(k, Mac(k, DerivedOf(k, m).kms, 2, m.inp))))
  }

  function MacpWire(k: Primitives, m: Method): Wire
    requires IsHash(k.sha256)
  {
    NO_WIRE.(type_ := Some(6), peerId := Some(k.quote(m.peerId)),
             macp := Some(Quoted(k, Mac(k, DerivedOf(k, m).kmp, 1, m.inp))))
  }

  function NoobIdWire(k: Primitives, m: Method): Wire {
    NO_WIRE.(type_ := Some(5), peerId := Some(k.quote(m.peerId)), noobId := Some(Quoted(k, m.noobId)))
  }

  function NoobIdRequest(k: Primitives, m: Method): Wire {
    NO_WIRE.(type_ := Some(5), peerId := Some(k.quote(m.peerId)))
  }

  /** Type 1 again: the peer shows that it has the OOB, and the server asks for the NoobId. */
  lemma CompletionBegins(k: Primitives, s: ServerState, p: PeerState, minted: Bytes, fed: Bytes, f: Fresh)
    requires HashLaws(k) && Ready(k, s, p, minted, fed)
    ensures Ordinary(PeerDiscovery(k, p)) && PeerDiscovery(k, p).type_ == Some(1)
    ensures var step := ServerDiscovery(k, s, PeerDiscovery(k, p), f);
      && step.r == Sending(NoobIdRequest(k, s.m)) && Ready(k, step.s, p, minted, fed)
      && step.s.m.inp == s.m.inp && step.s.assoc == s.assoc
  {
    hide HashLaws, Mac;
  }

  /** Type 5: the server asks, the peer answers with its NoobId. */
  lemma PeerSendsNoobId(k: Primitives, s: ServerState, p: PeerState, minted: Bytes, fed: Bytes)
    requires HashLaws(k) && Ready(k, s, p, minted, fed)
    ensures PeerNoobId(k, p) == Sending(NoobIdWire(k, p.m))
  {
    hide HashLaws;
  }

  /** The server answers the NoobId of the same Noob with its MACs, and any other with code 2003. */
  lemma ServerChecksNoobId(k: Primitives, s: ServerState, p: PeerState, minted: Bytes, fed: Bytes)
    requires HashLaws(k) && TextLaws(k) && Ready(k, s, p, minted, fed)
    ensures s.m.noobId == p.m.noobId ==>
              ServerNoobId(k, s, NoobIdWire(k, p.m)) ==
                ServerStep(s.(m := s.m.(keym := Some(DerivedOf(k, s.m)))), Sending(MacsWire(k, s.m)))
    ensures s.m.noobId != p.m.noobId ==>
              ServerNoobId(k, s, NoobIdWire(k, p.m)) ==
                ServerStep(s, FailCode(UNRECOGNIZED_OOB_MSG_ID, "unrecognized NoobId"))
  {
    hide TextLaws, Mac, CompletionKeys;
    TextReadBack(k, s.m.peerId, p.m.noobId, Jwk("", "", "", None));
    assert PeerIdOk(k, s, NoobIdWire(k, p.m));
  }

  /** With one Noob both sides derive the same keys and hold the same inputs. */
  lemma SameNoobSameKeys(k: Primitives, s: ServerState, p: PeerState, minted: Bytes, fed: Bytes)
    requires HashLaws(k) && Linked(s, p) && NoobsSet(k, s, p, minted, fed) && minted == fed
    ensures DerivedOf(k, s.m) == DerivedOf(k, p.m) && s.m.inp == p.m.inp && s.m.noobId == p.m.noobId
  {
    hide HashLaws, CompletionKeys;
  }

  /**
   * Type 6, peer: a MACs for the peer's own NoobId is answered with a MACp when it verifies, as it does
   * with one Noob, and with code 4001 when it does not.
   */
  lemma PeerChecksMacs(k: Primitives, s: ServerState, p: PeerState, minted: Bytes, fed: Bytes)
    requires HashLaws(k) && TextLaws(k) && Linked(s, p) && NoobsSet(k, s, p, minted, fed)
    requires s.m.noobId == p.m.noobId
    ensures var p' := p.(m := p.m.(keym := Some(DerivedOf(k, p.m))));
      || PeerCompletion(k, p, MacsWire(k, s.m)) == PeerStep(p', Sending(MacpWire(k, p.m)))
      || (minted != fed && PeerCompletion(k, p, MacsWire(k, s.m)) ==
            PeerStep(p', FailCode(HMAC_VERIFICATION_FAILED, "MACs verification failed")))
  {
    hide TextLaws, Mac, CompletionKeys;
    TextReadBack(k, "", s.m.noobId, Jwk("", "", "", None));
    TextReadBack(k, "", Mac(k, DerivedOf(k, s.m).kms, 2, s.m.inp), Jwk("", "", "", None));
    if minted == fed {
      SameNoobSameKeys(k, s, p, minted, fed);
    }
  }

  /** Type 6, server: with the keys just derived, the peer's MACp verifies with one Noob, and else success or 4001. */
  lemma ServerChecksMacp(k: Primitives, s: ServerState, p: PeerState, minted: Bytes, fed: Bytes)
    requires HashLaws(k) && TextLaws(k) && Linked(s, p) && NoobsSet(k, s, p, minted, fed)
    requires s.m.keym == Some(DerivedOf(k, s.m))
    ensures var registered := s.(state := Registered,
                                 assoc := Some(Association(s.m.peerId, s.m.nai, 2, DerivedOf(k, s.m).kz)));
      || ServerCompletion(k, s, MacpWire(k, p.m)) ==
           ServerStep(registered, Reacted(Outcome(Some(ResultWire("success")), true, true, None, None)))
      || (minted != fed && ServerCompletion(k, s, MacpWire(k, p.m)) ==
            ServerStep(s, FailCode(HMAC_VERIFICATION_FAILED, "MACp verification failed")))
  {
    hide TextLaws, Mac, CompletionKeys;
    TextReadBack(k, s.m.peerId, Mac(k, DerivedOf(k, p.m).kmp, 1, p.m.inp), Jwk("", "", "", None));
    assert PeerIdOk(k, s, MacpWire(k, p.m));
    if minted == fed {
      SameNoobSameKeys(k, s, p, minted, fed);
    }
  }

  /** The terminating `success`: the peer registers with the key it derived. */
  lemma PeerRegisters(k: Primitives, p: PeerState, f: Fresh)
    requires HashLaws(k) && p.csp == 2 && p.m.keym.Some?
    ensures PeerReceive(k, p, Message(ResultWire("success")), f) ==
              PeerStep(p.(state := Registered, assoc := Some(Association(p.m.peerId, p.m.nai, 2, p.m.keym.value.kz))),
                       Reacted(Outcome(None, true, true, None, None)))
  {
    hide HashLaws;
  }

  /** An error notification ends the peer's part with the sender's code. */
  lemma PeerHearsError(k: Primitives, p: PeerState, code: int, info: string, f: Fresh)
    requires HashLaws(k)
    ensures PeerReceive(k, p, Message(ErrorWire(code, info)), f) ==
              PeerStep(p, Reacted(Outcome(None, true, false, Some(PeerErrorMsg(code, Some(info))), Some(code))))
  {
    hide HashLaws, PeerErrorMsg;
  }
}
