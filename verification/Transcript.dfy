/**
 * Transcript agreement: whatever was delivered to either machine before, a MAC that one computed and the
 * other accepts means that both hold the same fifteen inputs and the same keys.
 */
module Transcript {
  import opened Octets
  import opened Decimal
  import opened JsonText
  import opened Negotiation
  import opened Kdf
  import opened MacArray
  import opened Primitives
  import opened Protocol
  import opened Invariants

  // ---- the MAC inputs stay JSON text ----

  ghost predicate ServerTextsOk(s: ServerState) {
    InputsOk(s.m.inp) && IsJson(s.serverInfo)
  }

  ghost predicate PeerTextsOk(p: PeerState) {
    InputsOk(p.m.inp) && IsJson(p.peerInfo)
  }

  lemma EmptyObjectIsJson()
    ensures IsJson("{}")
  {
    assert WellFormed(Object("", NoMembers));
    assert Render(Object("", NoMembers)) == "{}";
  }

  lemma ServerDiscoveryTexts(k: Primitives, s: ServerState, w: Wire, f: Fresh)
    requires HashLaws(k) && TextLaws(k) && ServerTextsOk(s)
    ensures ServerTextsOk(ServerDiscovery(k, s, w, f).s)
  {
    ShowIntsIsJson(s.versions);
    ShowIntsIsJson(s.cryptosuites);
    ShowIntIsJson(s.dirs);
    hide IsJson, ShowInts, ShowInt, Mac;
  }

  lemma ServerNegotiationTexts(k: Primitives, s: ServerState, w: Wire, f: Fresh)
    requires HashLaws(k) && TextLaws(k) && ServerTextsOk(s) && WireOk(w)
    ensures ServerTextsOk(ServerNegotiation(k, s, w, f).s)
  {
    EmptyObjectIsJson();
    hide IsJson, ParseInt, ParseStr, SuiteFromId, DirAccepted, ShowInts;
  }

  lemma ServerKeyExchangeTexts(k: Primitives, s: ServerState, w: Wire)
    requires ServerTextsOk(s) && WireOk(w)
    ensures ServerTextsOk(ServerKeyExchange(k, s, w).s)
  {
    hide IsJson, ParseKey, ParseBytes, ParseStr;
  }

  lemma ServerTextsKept(k: Primitives, s: ServerState, blob: Blob, f: Fresh)
    requires HashLaws(k) && TextLaws(k) && ServerTextsOk(s) && BlobOk(blob)
    ensures ServerTextsOk(ServerReceive(k, s, blob, f).s)
  {
    hide TextLaws, IsJson, InputsOk, ServerDiscovery, ServerNegotiation, ServerKeyExchange, StartCompletion;
    hide PeerIdOk, Mac;
    if blob.Message? && blob.wire.errorCode.None? {
      ServerDiscoveryTexts(k, s, blob.wire, f);
      ServerNegotiationTexts(k, s, blob.wire, f);
      ServerKeyExchangeTexts(k, s, blob.wire);
    }
  }

  lemma PeerNegotiationTexts(k: Primitives, p: PeerState, w: Wire)
    requires TextLaws(k) && PeerTextsOk(p) && WireOk(w)
    ensures PeerTextsOk(PeerNegotiation(k, p, w).p)
  {
    EmptyObjectIsJson();
    ShowIntIsJson(OrElse(MaxCommon(ParseInts(k, w.vers), p.versions), 0));
    ShowIntIsJson(OrElse(FirstSupported(ParseInts(k, w.cryptosuites), p.cryptosuites), 0));
    ShowIntIsJson(OrElse(ChooseDir(OrElse(ParseInt(k, w.dirs), -1), p.preferDir), 0));
    hide IsJson, ShowInt, MaxCommon, FirstSupported, ChooseDir, ParseInts, ParseInt, ParseStr, SuiteFromId;
  }

  lemma PeerKeyExchangeTexts(k: Primitives, p: PeerState, w: Wire, f: Fresh)
    requires TextLaws(k) && PeerTextsOk(p) && WireOk(w)
    ensures PeerTextsOk(PeerKeyExchange(k, p, w, f).p)
  {
    hide IsJson, ParseKey, ParseBytes, ParseStr;
  }

  lemma PeerTextsKept(k: Primitives, p: PeerState, blob: Blob, f: Fresh)
    requires HashLaws(k) && TextLaws(k) && PeerTextsOk(p) && BlobOk(blob)
    ensures PeerTextsOk(PeerReceive(k, p, blob, f).p)
  {
    hide TextLaws, IsJson, InputsOk, PeerNegotiation, PeerKeyExchange, PeerDiscovery, PeerNoobId, Mac;
    if blob.Message? {
      PeerNegotiationTexts(k, p, blob.wire);
      PeerKeyExchangeTexts(k, p, blob.wire, f);
    }
  }

  lemma {:induction false} ServerRunTexts(k: Primitives, info: string, inputs: seq<Input>)
    requires HashLaws(k) && TextLaws(k) && IsJson(info) && InputsOf(inputs)
    ensures ServerTextsOk(ServerRun(k, NewServer(info), inputs))
  {
    if |inputs| > 0 {
      var last := |inputs| - 1;
      ServerRunTexts(k, info, inputs[..last]);
      hide ServerReceive;
      if inputs[last].Received? {
        ServerTextsKept(k, ServerRun(k, NewServer(info), inputs[..last]), inputs[last].blob, inputs[last].random);
      }
    }
  }

  lemma {:induction false} PeerRunTexts(k: Primitives, info: string, inputs: seq<Input>)
    requires HashLaws(k) && TextLaws(k) && IsJson(info) && InputsOf(inputs)
    ensures PeerTextsOk(PeerRun(k, NewPeer(info), inputs))
  {
    if |inputs| > 0 {
      var last := |inputs| - 1;
      PeerRunTexts(k, info, inputs[..last]);
      hide PeerReceive;
      if inputs[last].Received? {
        PeerTextsKept(k, PeerRun(k, NewPeer(info), inputs[..last]), inputs[last].blob, inputs[last].random);
      }
    }
  }

  // ---- what a computed MAC says about its computer ----

  /** The wire that a reaction sends, if it sends one. */
  function Sent(r: Reaction): Option<Wire> {
    if r.Reacted? then r.outcome.send else None
  }

  /** A MACs the server sends is computed over its inputs with keys derived on the spot. */
  lemma ServerMacsOrigin(k: Primitives, s: ServerState, blob: Blob, f: Fresh)
    requires HashLaws(k)
    requires Sent(ServerReceive(k, s, blob, f).r).Some? && Sent(ServerReceive(k, s, blob, f).r).value.macs.Some?
    ensures Sent(ServerReceive(k, s, blob, f).r).value.macs ==
              Some(Quoted(k, Mac(k, DerivedOf(k, s.m).kms, 2, s.m.inp)))
    ensures ServerReceive(k, s, blob, f).s.m.keym == Some(DerivedOf(k, s.m))
  {
    hide ServerNegotiation, ServerKeyExchange, ServerCompletion, Mac, CompletionKeys;
    if blob.wire.type_ == Some(2) {
      NegotiationSendsNoMac(k, s, blob.wire, f);
    } else if blob.wire.type_ == Some(3) {
      KeyExchangeSendsNoMac(k, s, blob.wire);
    } else if blob.wire.type_ == Some(6) {
      CompletionSendsNoMac(k, s, blob.wire);
    }
  }

  lemma NegotiationSendsNoMac(k: Primitives, s: ServerState, w: Wire, f: Fresh)
    ensures Sent(ServerNegotiation(k, s, w, f).r).Some? ==> Sent(ServerNegotiation(k, s, w, f).r).value.macs.None?
  {
  }

  lemma KeyExchangeSendsNoMac(k: Primitives, s: ServerState, w: Wire)
    ensures Sent(ServerKeyExchange(k, s, w).r).Some? ==> Sent(ServerKeyExchange(k, s, w).r).value.macs.None?
  {
  }

  lemma CompletionSendsNoMac(k: Primitives, s: ServerState, w: Wire)
    ensures Sent(ServerCompletion(k, s, w).r).Some? ==> Sent(ServerCompletion(k, s, w).r).value.macs.None?
  {
  }

  // ---- agreement ----

  /** `s` and `p` are reached from fresh machines by any messages, random values and OOB inputs at all. */
  ghost predicate Reached(k: Primitives, infoS: string, toServer: seq<Input>, s: ServerState,
                          infoP: string, toPeer: seq<Input>, p: PeerState)
    requires IsHash(k.sha256)
  {
    && IsJson(infoS) && InputsOf(toServer) && s == ServerRun(k, NewServer(infoS), toServer)
    && IsJson(infoP) && InputsOf(toPeer) && p == PeerRun(k, NewPeer(infoP), toPeer)
  }

  /** On `last` the peer answers with exactly this MACp field. */
  predicate PeerComputesMacp(k: Primitives, p: PeerState, last: Blob, f: Fresh, macp: Option<string>)
    requires IsHash(k.sha256)
  {
    var sent := Sent(PeerReceive(k, p, last, f).r);
    macp.Some? && sent.Some? && sent.value.macp == macp
  }

  predicate ServerComputesMacs(k: Primitives, s: ServerState, last: Blob, f: Fresh, macs: Option<string>)
    requires IsHash(k.sha256)
  {
    var sent := Sent(ServerReceive(k, s, last, f).r);
    macs.Some? && sent.Some? && sent.value.macs == macs
  }

  predicate ServerAccepts(k: Primitives, s: ServerState, w: Wire, f: Fresh)
    requires IsHash(k.sha256)
  {
    var r := ServerReceive(k, s, Message(w), f).r;
    r.Reacted? && r.outcome.success
  }

  /** A peer shows its acceptance of a MACs by answering with its own MAC. */
  predicate PeerAccepts(k: Primitives, p: PeerState, w: Wire, f: Fresh)
    requires IsHash(k.sha256)
  {
    var sent := Sent(PeerReceive(k, p, Message(w), f).r);
    sent.Some? && sent.value.macp.Some?
  }

  /**
   * The server accepts a message carrying the MACp the peer computed, every other field of which may
   * have been changed: both hold the same inputs and the same confirmation key.
   */
  lemma ServerAcceptanceAgrees(
    k: Primitives, infoS: string, toServer: seq<Input>, s: ServerState, infoP: string, toPeer: seq<Input>, p: PeerState,
    last: Blob, fp: Fresh, reply: Wire, fs: Fresh)
    requires HashLaws(k) && TextLaws(k) && Reached(k, infoS, toServer, s, infoP, toPeer, p)
    requires PeerComputesMacp(k, p, last, fp, reply.macp)
    requires ServerAccepts(k, s, reply, fs)
    requires s.m.keym.Some? ==> NoMacCollision(k, s.m.keym.value.kmp, s.m.inp, DerivedOf(k, p.m).kmp, p.m.inp, 1)
    ensures SameFields(s.m.inp, p.m.inp)
    ensures s.m.keym.Some? && s.m.keym.value.kmp == DerivedOf(k, p.m).kmp
  {
    ServerRunTexts(k, infoS, toServer);
    PeerRunTexts(k, infoP, toPeer);
    ServerStepSafe(k, s, Message(reply), fs);
    PeerMacpMeansVerified(k, p, last, fp);
    hide ServerReceive, PeerReceive, ServerRun, PeerRun, CompletionKeys, IsJson, InputsOk, SameFields, Mac, ServerKept;
    EqualMacsAgree(k, s.m.keym.value.kmp, s.m.inp, DerivedOf(k, p.m).kmp, p.m.inp, 1);
  }

  /** The peer accepts a message carrying the MACs the server computed: the same, and every key agrees. */
  lemma PeerAcceptanceAgrees(
    k: Primitives, infoS: string, toServer: seq<Input>, s: ServerState, infoP: string, toPeer: seq<Input>, p: PeerState,
    last: Blob, fs: Fresh, reply: Wire, fp: Fresh)
    requires HashLaws(k) && TextLaws(k) && Reached(k, infoS, toServer, s, infoP, toPeer, p)
    requires ServerComputesMacs(k, s, last, fs, reply.macs)
    requires PeerAccepts(k, p, reply, fp)
    requires NoMacCollision(k, DerivedOf(k, s.m).kms, s.m.inp, DerivedOf(k, p.m).kms, p.m.inp, 2)
    requires NoCollision(k.sha256, BlockInput(s.m.z, FixedInfo(s.m.np, s.m.ns, s.m.noob), 7),
                         BlockInput(p.m.z, FixedInfo(p.m.np, p.m.ns, p.m.noob), 7))
    ensures SameFields(s.m.inp, p.m.inp)
    ensures DerivedOf(k, s.m) == DerivedOf(k, p.m)
  {
    ServerRunTexts(k, infoS, toServer);
    PeerRunTexts(k, infoP, toPeer);
    ServerMacsOrigin(k, s, last, fs);
    PeerMacpMeansVerified(k, p, Message(reply), fp);
    hide ServerReceive, PeerReceive, ServerRun, PeerRun, IsJson, InputsOk, SameFields, CompletionKeys, Mac;
    EqualMacsAgree(k, DerivedOf(k, s.m).kms, s.m.inp, DerivedOf(k, p.m).kms, p.m.inp, 2);
    KmsFixesKeys(k.sha256, s.m.z, s.m.np, s.m.ns, s.m.noob, p.m.z, p.m.np, p.m.ns, p.m.noob);
  }

  // ---- where the server's keys came from, and that Kmp fixes Kz ----

  /** The method state from which the keys that the server holds after `inputs` were last derived, if it holds any. */
  ghost function KeySource(k: Primitives, info: string, inputs: seq<Input>): Option<Method>
    requires IsHash(k.sha256)
  {
    if |inputs| == 0 then None
    else
      var last := |inputs| - 1;
      var before := ServerRun(k, NewServer(info), inputs[..last]);
      var after := ServerInput(k, before, inputs[last]);
      if after.m.keym.Some? && after.m.keym == Some(DerivedOf(k, before.m)) then Some(before.m)
      else KeySource(k, info, inputs[..last])
  }

  /** That source is what the server held at some earlier point of this very run. */
  lemma {:induction false} SourceIsReached(k: Primitives, info: string, inputs: seq<Input>) returns (i: nat)
    requires IsHash(k.sha256) && KeySource(k, info, inputs).Some?
    ensures i < |inputs| && KeySource(k, info, inputs) == Some(ServerRun(k, NewServer(info), inputs[..i]).m)
  {
    hide ServerInput, ServerRun, NewServer, DerivedOf;
    var last := |inputs| - 1;
    if KeySource(k, info, inputs) == Some(ServerRun(k, NewServer(info), inputs[..last]).m) {
      i := last;
    } else {
      i := SourceIsReached(k, info, inputs[..last]);
      assert inputs[..last][..i] == inputs[..i];
    }
  }

  /** Keys that are held were derived from their source. */
  lemma {:induction false} ServerRunKeys(k: Primitives, info: string, inputs: seq<Input>)
    requires HashLaws(k)
    ensures var held, source := ServerRun(k, NewServer(info), inputs).m.keym, KeySource(k, info, inputs);
      held.Some? ==> source.Some? && held == Some(DerivedOf(k, source.value))
  {
    if |inputs| > 0 {
      var last := |inputs| - 1;
      ServerRunKeys(k, info, inputs[..last]);
      ServerInputKeys(k, ServerRun(k, NewServer(info), inputs[..last]), inputs[last]);
      hide ServerInput, DerivedOf;
    }
  }

  lemma ServerInputKeys(k: Primitives, s: ServerState, i: Input)
    requires HashLaws(k)
    ensures var s' := ServerInput(k, s, i); s'.m.keym == s.m.keym || s'.m.keym == Some(DerivedOf(k, s.m))
  {
    if i.Received? {
      hide ServerReceive, DerivedOf;
    }
  }

  /**
   * If the accepted MACp was computed under keys of which block 9 does not collide with the server's, all keys
   * agree.
   */
  lemma AcceptedKmpFixesKz(k: Primitives, keym: DerivedKeys, z: Bytes, np: Bytes, ns: Bytes, noob: Bytes, p: Method)
    requires HashLaws(k) && keym == CompletionKeys(k.sha256, z, np, ns, noob)
    requires keym.kmp == DerivedOf(k, p).kmp
    requires NoCollision(k.sha256, BlockInput(z, FixedInfo(np, ns, noob), 8),
                         BlockInput(p.z, FixedInfo(p.np, p.ns, p.noob), 8))
    ensures keym == DerivedOf(k, p) && keym.kz == DerivedOf(k, p).kz
  {
    KmpFixesKeys(k.sha256, z, np, ns, noob, p.z, p.np, p.ns, p.noob);
  }

  /** What block 9 of the KDF, which is Kmp, hashes for this method state. */
  function KmpInput(m: Method): Bytes {
    BlockInput(m.z, FixedInfo(m.np, m.ns, m.noob), 8)
  }

  /**
   * And then the association that the server makes holds the very Kz that the peer derives, unless SHA-256
   * collides on the two inputs from which the server and the peer computed that Kmp.
   */
  lemma ServerAcceptanceFixesKz(
    k: Primitives, infoS: string, toServer: seq<Input>, s: ServerState, infoP: string, toPeer: seq<Input>, p: PeerState,
    last: Blob, fp: Fresh, reply: Wire, fs: Fresh)
    requires HashLaws(k) && TextLaws(k) && Reached(k, infoS, toServer, s, infoP, toPeer, p)
    requires PeerComputesMacp(k, p, last, fp, reply.macp)
    requires ServerAccepts(k, s, reply, fs)
    requires s.m.keym.Some? ==> NoMacCollision(k, s.m.keym.value.kmp, s.m.inp, DerivedOf(k, p.m).kmp, p.m.inp, 1)
    requires var source := KeySource(k, infoS, toServer);
      source.Some? ==> NoCollision(k.sha256, KmpInput(source.value), KmpInput(p.m))
    ensures var assoc := ServerReceive(k, s, Message(reply), fs).s.assoc;
      assoc.Some? && assoc.value.kz == DerivedOf(k, p.m).kz
    ensures s.m.keym == Some(DerivedOf(k, p.m))
  {
    ServerAcceptanceAgrees(k, infoS, toServer, s, infoP, toPeer, p, last, fp, reply, fs);
    ServerRunKeys(k, infoS, toServer);
    ServerStepSafe(k, s, Message(reply), fs);
    hide TextLaws, ServerReceive, PeerReceive, ServerRun, PeerRun, CompletionKeys, IsJson, SameFields;
    hide ServerKept, MacpVerifies, ServerPanics;
    hide KeySource, NoCollision;
    var m := KeySource(k, infoS, toServer).value;
    AcceptedKmpFixesKz(k, s.m.keym.value, m.z, m.np, m.ns, m.noob, p.m);
  }
}
