/**
 * The honest run of the two machines as a pair of transcripts: every premise of the agreement lemmas of
 * `Transcript` is met in it, for any primitives with the laws.
 */
module HonestTranscript {
  import opened Octets
  import opened Decimal
  import opened JsonText
  import opened Negotiation
  import opened Kdf
  import opened Primitives
  import opened Protocol
  import opened Exchange
  import opened Invariants
  import opened Transcript

  /** The inputs so far, and the two machines that they lead to. */
  ghost predicate Sides(k: Primitives, infoS: string, toServer: seq<Input>, s: ServerState,
                        infoP: string, toPeer: seq<Input>, p: PeerState)
    requires IsHash(k.sha256)
  {
    && InputsOf(toServer) && s == ServerRun(k, NewServer(infoS), toServer)
    && InputsOf(toPeer) && p == PeerRun(k, NewPeer(infoP), toPeer)
  }

  lemma ServerHears(k: Primitives, info: string, inputs: seq<Input>, s: ServerState, i: Input)
    requires IsHash(k.sha256) && InputsOf(inputs) && s == ServerRun(k, NewServer(info), inputs)
    requires i.Received? ==> BlobOk(i.blob)
    ensures InputsOf(inputs + [i]) && ServerRun(k, NewServer(info), inputs + [i]) == ServerInput(k, s, i)
  {
    hide ServerInput, BlobOk;
    assert (inputs + [i])[..|inputs|] == inputs;
  }

  lemma PeerHears(k: Primitives, info: string, inputs: seq<Input>, p: PeerState, i: Input)
    requires IsHash(k.sha256) && InputsOf(inputs) && p == PeerRun(k, NewPeer(info), inputs)
    requires i.Received? ==> BlobOk(i.blob)
    ensures InputsOf(inputs + [i]) && PeerRun(k, NewPeer(info), inputs + [i]) == PeerInput(k, p, i)
  {
    hide PeerInput, BlobOk;
    assert (inputs + [i])[..|inputs|] == inputs;
  }

  // ---- the messages are JSON text where they have to be ----

  lemma DiscoveryOk(k: Primitives, p: PeerState)
    requires TextLaws(k)
    ensures BlobOk(Message(PeerDiscovery(k, p)))
  {
    hide IsJson;
    assert IsJson(k.quote(p.m.peerId)) && IsJson(k.quote(p.m.nai));
  }

  lemma OfferOk(k: Primitives, s: ServerState, msg: Wire, info: string)
    requires TextLaws(k) && Offered(k, s, msg, info) && IsJson(info)
    ensures BlobOk(Message(msg))
  {
    ShowIntsIsJson([1]);
    ShowIntsIsJson([2, 1]);
    ShowIntIsJson(2);
    assert IsJson(k.quote(s.m.peerId));
    hide IsJson, ShowInts, ShowInt, TextLaws;
  }

  lemma ChoiceOk(k: Primitives, peerId: string, info: string)
    requires TextLaws(k) && IsJson(info)
    ensures BlobOk(Message(Choice(k, peerId, info)))
  {
    ShowIntIsJson(1);
    ShowIntIsJson(2);
    assert IsJson(k.quote(peerId));
    hide IsJson, ShowInt, TextLaws;
  }

  lemma KeysOk(k: Primitives, s: ServerState, p: PeerState, msg: Wire, info: string, peerInfo: string, secret: Bytes,
               key: Wire, f: Fresh)
    requires TextLaws(k) && Keyed(k, s, p, msg, info, peerInfo, secret)
    requires key == NO_WIRE.(type_ := Some(3), peerId := Some(k.quote(s.m.peerId)),
                             pkp := Some(k.showJwk(k.publicKey(KeyPair(P256, f.secret)))),
                             np := Some(Quoted(k, f.nonce)))
    ensures BlobOk(Message(msg)) && BlobOk(Message(key))
  {
    assert IsJson(k.quote(s.m.peerId)) && IsJson(Quoted(k, s.m.ns)) && IsJson(Quoted(k, f.nonce));
    assert IsJson(k.showJwk(k.publicKey(KeyPair(P256, secret))))
        && IsJson(k.showJwk(k.publicKey(KeyPair(P256, f.secret))));
    hide IsJson, ShowInts, ShowInt, TextLaws;
  }

  lemma NoobIdOk(k: Primitives, m: Method)
    requires TextLaws(k)
    ensures BlobOk(Message(NoobIdWire(k, m)))
  {
    hide IsJson;
  }

  // ---- the exchange, step by step ----

  /** Offer and choice. */
  lemma Negotiated(k: Primitives, infoS: string, infoP: string, f: Fresh)
    returns (toServer: seq<Input>, s: ServerState, toPeer: seq<Input>, p: PeerState, msg: Wire)
    requires Lawful(k) && FreshOk(f) && IsJson(infoS) && IsJson(infoP) && infoS != "" && infoP != ""
    ensures IsHash(k.sha256) && Sides(k, infoS, toServer, s, infoP, toPeer, p)
    ensures Keyed(k, s, p, msg, infoS, infoP, f.secret)
  {
    hide TextLaws, KeyLaws, InfoLaws, IsJson, InputsOf, BlobOk, PeerNegotiation, ServerNegotiation;
    hide ServerDiscovery, PeerReceive, ServerReceive;
    hide Offered, Keyed, PeerRun, ServerRun, PeerDiscovery, Choice;
    var offer := ServerOffers(k, infoS, infoP, f);
    var hello := PeerDiscovery(k, NewPeer(infoP));
    ServerDispatch(k, NewServer(infoS), hello, f);
    DiscoveryOk(k, NewPeer(infoP));
    RunsBegin(k, infoS, infoP);
    ServerHears(k, infoS, [], NewServer(infoS), Received(Message(hello), f));
    var s1 := ServerDiscovery(k, NewServer(infoS), hello, f).s;
    OfferOk(k, s1, offer, infoS);
    OfferOrdinary(k, s1, offer, infoS);
    PeerChooses(k, s1, offer, infoS, infoP);
    PeerDispatch(k, NewPeer(infoP), offer, f);
    PeerHears(k, infoP, [], NewPeer(infoP), Received(Message(offer), f));
    var choice := Choice(k, s1.m.peerId, infoP);
    ChoiceOk(k, s1.m.peerId, infoP);
    ChoiceOrdinary(k, s1.m.peerId, infoP);
    ServerDispatch(k, s1, choice, f);
    msg := ServerKeys(k, s1, offer, infoS, infoP, f);
    toServer, toPeer := [] + [Received(Message(hello), f)], [] + [Received(Message(offer), f)];
    ServerHears(k, infoS, toServer, s1, Received(Message(choice), f));
    toServer := toServer + [Received(Message(choice), f)];
    s, p := ServerNegotiation(k, s1, choice, f).s, ChoosingPeer(k, s1.m.peerId, infoS, infoP);
  }

  lemma RunsBegin(k: Primitives, infoS: string, infoP: string)
    requires IsHash(k.sha256)
    ensures ServerRun(k, NewServer(infoS), []) == NewServer(infoS) && PeerRun(k, NewPeer(infoP), []) == NewPeer(infoP)
    ensures InputsOf([])
  {
  }

  lemma OfferOrdinary(k: Primitives, s: ServerState, msg: Wire, info: string)
    requires Offered(k, s, msg, info)
    ensures Ordinary(msg) && msg.type_ == Some(2)
  {
    hide ShowInts, ShowInt;
  }

  lemma ChoiceOrdinary(k: Primitives, peerId: string, info: string)
    ensures Ordinary(Choice(k, peerId, info)) && Choice(k, peerId, info).type_ == Some(2)
  {
    hide ShowInt;
  }

  lemma KeyOrdinary(k: Primitives, s: ServerState, p: PeerState, msg: Wire, info: string, peerInfo: string,
                    secret: Bytes)
    requires Keyed(k, s, p, msg, info, peerInfo, secret)
    ensures Ordinary(msg) && msg.type_ == Some(3)
  {
    hide ShowInts, ShowInt;
  }

  /** The keys are exchanged: both machines wait, linked. */
  lemma Waited(k: Primitives, infoS: string, infoP: string, f: Fresh)
    returns (toServer: seq<Input>, s: ServerState, toPeer: seq<Input>, p: PeerState)
    requires Lawful(k) && FreshOk(f) && IsJson(infoS) && IsJson(infoP) && infoS != "" && infoP != ""
    ensures IsHash(k.sha256) && Sides(k, infoS, toServer, s, infoP, toPeer, p)
    ensures Linked(s, p) && s.state == Waiting && p.state == Waiting && s.m.noob == [] && p.m.noob == []
    ensures s.m.keym.None? && p.m.keym.None?
  {
    hide TextLaws, KeyLaws, InfoLaws, IsJson, InputsOf, BlobOk, PeerKeyExchange, ServerKeyExchange, PeerReceive;
    hide ServerReceive;
    hide Keyed, PeerRun, ServerRun, Linked;
    var ts, s1, tp, p1, msg := Negotiated(k, infoS, infoP, f);
    var key := PeerKeys(k, s1, p1, msg, infoS, infoP, f.secret, f);
    KeyOrdinary(k, s1, p1, msg, infoS, infoP, f.secret);
    KeysOk(k, s1, p1, msg, infoS, infoP, f.secret, key, f);
    ServerWaits(k, s1, p1, msg, infoS, infoP, f.secret, f);
    PeerDispatch(k, p1, msg, f);
    PeerHears(k, infoP, tp, p1, Received(Message(msg), f));
    ServerDispatch(k, s1, key, f);
    ServerHears(k, infoS, ts, s1, Received(Message(key), f));
    toServer, toPeer := ts + [Received(Message(key), f)], tp + [Received(Message(msg), f)];
    s, p := ServerKeyExchange(k, s1, key).s, PeerKeyExchange(k, p1, msg, f).p;
  }

  /** Both are given the Noob, and the peer shows it: ready for the Completion Exchange. */
  lemma MadeReady(k: Primitives, infoS: string, infoP: string, noob: Bytes, f: Fresh)
    returns (toServer: seq<Input>, s: ServerState, toPeer: seq<Input>, p: PeerState)
    requires Lawful(k) && FreshOk(f) && IsJson(infoS) && IsJson(infoP) && infoS != "" && infoP != "" && |noob| == 16
    ensures IsHash(k.sha256) && Sides(k, infoS, toServer, s, infoP, toPeer, p) && Ready(k, s, p, noob, noob)
  {
    hide TextLaws, KeyLaws, InfoLaws, IsJson, InputsOf, BlobOk, ServerDiscovery, ServerReceive, PeerDiscovery;
    hide PeerRun, ServerRun, Ready;
    var ts, s1, tp, p1 := Waited(k, infoS, infoP, f);
    NoobGoesIn(k, s1, p1, noob);
    PeerHears(k, infoP, tp, p1, Oob(noob));
    ServerHears(k, infoS, ts, s1, Oob(noob));
    var s2, p2 := ServerOob(k, s1, noob).value, PeerOob(k, p1, noob).value;
    CompletionBegins(k, s2, p2, noob, noob, f);
    DiscoveryOk(k, p2);
    ServerDispatch(k, s2, PeerDiscovery(k, p2), f);
    toServer, toPeer := ts + [Oob(noob)], tp + [Oob(noob)];
    ServerHears(k, infoS, toServer, s2, Received(Message(PeerDiscovery(k, p2)), f));
    toServer := toServer + [Received(Message(PeerDiscovery(k, p2)), f)];
    s, p := ServerDiscovery(k, s2, PeerDiscovery(k, p2), f).s, p2;
  }

  lemma NoobGoesIn(k: Primitives, s: ServerState, p: PeerState, noob: Bytes)
    requires IsHash(k.sha256) && Linked(s, p) && s.state == Waiting && p.state == Waiting && |noob| == 16
    ensures ServerOob(k, s, noob).Ok? && PeerOob(k, p, noob).Ok?
    ensures Ready(k, ServerOob(k, s, noob).value, PeerOob(k, p, noob).value, noob, noob)
  {
  }

  // ---- the premises of the agreement lemmas ----

  /** All that the acceptance lemmas ask for, of the server before it makes its keys and after. */
  ghost predicate PremisesMet(k: Primitives, infoS: string, asked: seq<Input>, last: Input, infoP: string,
                              toPeer: seq<Input>, f: Fresh)
    requires IsHash(k.sha256)
  {
    var before, after := ServerRun(k, NewServer(infoS), asked), ServerRun(k, NewServer(infoS), asked + [last]);
    var p := PeerRun(k, NewPeer(infoP), toPeer);
    var macs, macp := MacsWire(k, before.m), MacpWire(k, p.m);
    && Reached(k, infoS, asked, before, infoP, toPeer, p) && Reached(k, infoS, asked + [last], after, infoP, toPeer, p)
    // the peer's side
    && last.Received? && ServerComputesMacs(k, before, last.blob, last.random, macs.macs) && PeerAccepts(k, p, macs, f)
    && NoMacCollision(k, DerivedOf(k, before.m).kms, before.m.inp, DerivedOf(k, p.m).kms, p.m.inp, 2)
    && NoCollision(k.sha256, BlockInput(before.m.z, FixedInfo(before.m.np, before.m.ns, before.m.noob), 7),
                   BlockInput(p.m.z, FixedInfo(p.m.np, p.m.ns, p.m.noob), 7))
    // the server's side
    && PeerComputesMacp(k, p, Message(macs), f, macp.macp) && Transcript.ServerAccepts(k, after, macp, f)
    && after.m.keym.Some? && NoMacCollision(k, after.m.keym.value.kmp, after.m.inp, DerivedOf(k, p.m).kmp, p.m.inp, 1)
    && KeySource(k, infoS, asked + [last]) == Some(before.m) && NoCollision(k.sha256, KmpInput(before.m), KmpInput(p.m))
  }

  /** The server makes its keys and sends its MACs, the peer takes them, and the server takes the peer's MACp. */
  lemma Confirms(k: Primitives, s: ServerState, p: PeerState, noob: Bytes, f: Fresh)
    requires HashLaws(k) && TextLaws(k) && Ready(k, s, p, noob, noob)
    ensures var s' := s.(m := s.m.(keym := Some(DerivedOf(k, s.m))));
      && ServerInput(k, s, Received(Message(NoobIdWire(k, p.m)), f)) == s'
      && ServerComputesMacs(k, s, Message(NoobIdWire(k, p.m)), f, MacsWire(k, s.m).macs)
      && PeerAccepts(k, p, MacsWire(k, s.m), f)
      && PeerComputesMacp(k, p, Message(MacsWire(k, s.m)), f, MacpWire(k, p.m).macp)
      && Transcript.ServerAccepts(k, s', MacpWire(k, p.m), f)
  {
    assert IsHash(k.sha256);
    hide TextLaws, HashLaws, CompletionKeys, Mac, ServerReceive, PeerReceive, ServerCompletion, PeerCompletion;
    hide ServerNoobId, HasNoob;
    var s' := s.(m := s.m.(keym := Some(DerivedOf(k, s.m))));
    SameNoobSameKeys(k, s, p, noob, noob);
    ServerChecksNoobId(k, s, p, noob, noob);
    ServerDispatch(k, s, NoobIdWire(k, p.m), f);
    PeerChecksMacs(k, s, p, noob, noob);
    PeerDispatch(k, p, MacsWire(k, s.m), f);
    ServerChecksMacp(k, s', p, noob, noob);
    ServerDispatch(k, s', MacpWire(k, p.m), f);
  }

  /** For any PairingInfos and any Noob the honest run meets them all. */
  lemma PremisesAreMet(k: Primitives, infoS: string, infoP: string, noob: Bytes, f: Fresh)
    returns (asked: seq<Input>, last: Input, toPeer: seq<Input>)
    requires Lawful(k) && FreshOk(f) && IsJson(infoS) && IsJson(infoP) && infoS != "" && infoP != "" && |noob| == 16
    ensures IsHash(k.sha256) && PremisesMet(k, infoS, asked, last, infoP, toPeer, f)
  {
    hide TextLaws, KeyLaws, InfoLaws, IsJson, InputsOf, BlobOk, CompletionKeys, Mac, ServerInput, PeerRun;
    hide ServerRun, KeySource;
    hide ServerComputesMacs, PeerAccepts, PeerComputesMacp, Transcript.ServerAccepts, Ready;
    var ts, s, tp, p := MadeReady(k, infoS, infoP, noob, f);
    asked, toPeer, last := ts, tp, Received(Message(NoobIdWire(k, p.m)), f);
    Confirms(k, s, p, noob, f);
    NoobIdOk(k, p.m);
    ServerHears(k, infoS, asked, s, last);
    SourceOfLast(k, infoS, asked, last);
    ReadyKeys(k, s, p, noob);
  }

  lemma ReadyKeys(k: Primitives, s: ServerState, p: PeerState, noob: Bytes)
    requires HashLaws(k) && Ready(k, s, p, noob, noob)
    ensures DerivedOf(k, s.m) == DerivedOf(k, p.m) && s.m.inp == p.m.inp
    ensures s.m.z == p.m.z && s.m.np == p.m.np && s.m.ns == p.m.ns && s.m.noob == p.m.noob
  {
    hide HashLaws, CompletionKeys, NoobIdOf;
  }

  lemma SourceOfLast(k: Primitives, info: string, inputs: seq<Input>, last: Input)
    requires IsHash(k.sha256)
    requires var s := ServerRun(k, NewServer(info), inputs); ServerInput(k, s, last).m.keym == Some(DerivedOf(k, s.m))
    ensures KeySource(k, info, inputs + [last]) == Some(ServerRun(k, NewServer(info), inputs).m)
  {
    hide ServerInput, ServerRun, DerivedOf;
    assert (inputs + [last])[..|inputs|] == inputs;
  }
}
