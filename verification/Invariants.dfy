/** What every step and every run of the two machines keeps, whatever messages arrive. */
module Invariants {
  import opened Octets
  import opened Decimal
  import opened JsonText
  import opened Negotiation
  import opened Kdf
  import opened Primitives
  import opened Protocol

  // ---- what a received message is guaranteed to be ----

  ghost predicate RawOk(r: Option<string>) {
    r.Some? ==> IsJson(r.value)
  }

  /** Every raw field of a decoded message is JSON text, as `RawValue` guarantees. */
  ghost predicate WireOk(w: Wire) {
    && RawOk(w.vers) && RawOk(w.verp) && RawOk(w.peerId) && RawOk(w.cryptosuites) && RawOk(w.cryptosuitep)
    && RawOk(w.dirs) && RawOk(w.dirp) && RawOk(w.serverInfo) && RawOk(w.peerInfo)
    && RawOk(w.pks) && RawOk(w.pkp) && RawOk(w.ns) && RawOk(w.np)
  }

  ghost predicate BlobOk(blob: Blob) {
    blob.Message? ==> WireOk(blob.wire)
  }

  // ---- one step ----

  /** The Noob is absent, or has 16 octets that the NoobId and the MAC input were computed from. */
  ghost predicate NoobOk(k: Primitives, m: Method)
    requires IsHash(k.sha256)
  {
    (m.noob == [] && m.noobId == ZEROS_16)
    || (|m.noob| == 16 && m.noobId == NoobIdOf(k, Quoted(k, m.noob)) && m.inp.noob == Quoted(k, m.noob))
  }

  ghost predicate ServerInv(k: Primitives, s: ServerState)
    requires IsHash(k.sha256)
  {
    && s.state in {Unregistered, Waiting, Registered}
    && (s.state == Registered ==> s.assoc.Some?)
    && (s.state == Waiting ==> s.m.keypair.Some?)
    && (s.m.keypair.Some? ==> s.m.suite.Some? && DirAccepted(s.dirp, s.dirs))
    && NoobOk(k, s.m)
  }

  /** An outcome with an error is final, unsuccessful and coded. */
  predicate ErrorIsFinal(o: Outcome) {
    && (o.error.Some? ==> o.done && !o.success && o.errorCode.Some?)
    && (o.error.None? ==> o.errorCode.None?)
    && (o.success ==> o.done)
  }

  /** The message carries the MACp that `s` expects under its current keys and inputs. */
  predicate MacpVerifies(k: Primitives, s: ServerState, blob: Blob) {
    && blob.Message? && blob.wire.type_ == Some(6) && s.m.keym.Some?
    && ParseBytes(k, blob.wire.macp) == Some(Mac(k, s.m.keym.value.kmp, 1, s.m.inp))
  }

  /** Exactly what a server accepts: no error code, its own PeerId, and a MACp that verifies. */
  predicate Accepts(k: Primitives, s: ServerState, blob: Blob) {
    MacpVerifies(k, s, blob) && blob.wire.errorCode.None? && PeerIdOk(k, s, blob.wire)
  }

  /** When the code unwraps what is not there. */
  predicate ServerPanics(k: Primitives, s: ServerState, blob: Blob) {
    && blob.Message? && blob.wire.errorCode.None? && PeerIdOk(k, s, blob.wire)
    && ((blob.wire.type_ == Some(3) && ParseKey(k, blob.wire.pkp).Some? && s.m.keypair.None?)
        || (blob.wire.type_ == Some(6) && s.m.keym.None?))
  }

  /** `s'` still has the invariant and the configuration of `s`, and has not forgotten that it began. */
  ghost predicate ServerKept(k: Primitives, s: ServerState, s': ServerState)
    requires IsHash(k.sha256)
  {
    && (ServerInv(k, s) ==> ServerInv(k, s'))
    && (s.state != Unregistered ==> s'.state != Unregistered)
    && s'.dirs == s.dirs && s'.versions == s.versions && s'.cryptosuites == s.cryptosuites
    && s'.m.noob == s.m.noob && s'.m.noobId == s.m.noobId
    && (s.m.keypair.Some? ==> s'.m.keypair.Some?) && (s.m.suite.Some? ==> s'.m.suite.Some?)
  }

  /**
   * A server succeeds exactly on a message it accepts, and then registers; an error leaves the state and the
   * association alone; a panic leaves everything alone.
   */
  predicate ServerAnswered(k: Primitives, s: ServerState, blob: Blob, step: ServerStep) {
    && (step.r.Aborted? <==> ServerPanics(k, s, blob))
    && (step.r.Aborted? ==> step.s == s)
    && (step.r.Reacted? ==> ServerOutcomeOk(k, s, blob, step.s, step.r.outcome))
  }

  /** The error codes that are sent. */
  predicate CodeKnown(o: Outcome) {
    o.send.Some? && o.send.value.errorCode.Some? ==>
      o.send.value.errorCode.value in {INVALID_DATA, UNRECOGNIZED_OOB_MSG_ID, HMAC_VERIFICATION_FAILED}
  }

  predicate ServerOutcomeOk(k: Primitives, s: ServerState, blob: Blob, s': ServerState, o: Outcome) {
    && ErrorIsFinal(o)
    && (o.error.Some? ==> s'.state == s.state && s'.assoc == s.assoc)
    && (o.success <==> Accepts(k, s, blob))
    && (o.success ==>
          && s'.m == s.m && s'.state == Registered
          && s'.assoc == Some(Association(s.m.peerId, s.m.nai, s.csp % 256, s.m.keym.value.kz)))
    && (!o.success ==> s'.assoc == s.assoc && (s'.state == Registered ==> s.state == Registered))
    && CodeKnown(o)
  }

  lemma DiscoveryStep(k: Primitives, s: ServerState, w: Wire, f: Fresh)
    requires IsHash(k.sha256) && w.errorCode.None? && w.type_ == Some(1)
    ensures ServerKept(k, s, ServerDiscovery(k, s, w, f).s)
    ensures ServerAnswered(k, s, Message(w), ServerDiscovery(k, s, w, f))
  {
    hide ShowInts, ShowInt, Mac, CompletionKeys, ParseStr, NoobIdOf;
  }

  lemma NegotiationStep(k: Primitives, s: ServerState, w: Wire, f: Fresh)
    requires IsHash(k.sha256) && w.errorCode.None? && w.type_ == Some(2)
    ensures ServerKept(k, s, ServerNegotiation(k, s, w, f).s)
    ensures ServerAnswered(k, s, Message(w), ServerNegotiation(k, s, w, f))
  {
    hide ParseInt, ParseStr, ShowInts, ShowInt, NoobIdOf, DirAccepted, SuiteFromId;
  }

  lemma KeyExchangeStep(k: Primitives, s: ServerState, w: Wire)
    requires IsHash(k.sha256) && w.errorCode.None? && w.type_ == Some(3)
    ensures ServerKept(k, s, ServerKeyExchange(k, s, w).s)
    ensures ServerAnswered(k, s, Message(w), ServerKeyExchange(k, s, w))
  {
    hide ParseKey, ParseStr, ParseBytes, NoobIdOf, DirAccepted;
  }

  lemma NoobIdStep(k: Primitives, s: ServerState, w: Wire)
    requires IsHash(k.sha256) && w.errorCode.None? && w.type_ == Some(5)
    ensures ServerKept(k, s, ServerNoobId(k, s, w).s)
    ensures ServerAnswered(k, s, Message(w), ServerNoobId(k, s, w))
  {
  }

  lemma CompletionStep(k: Primitives, s: ServerState, w: Wire)
    requires HashLaws(k) && w.errorCode.None? && w.type_ == Some(6)
    ensures ServerKept(k, s, ServerCompletion(k, s, w).s)
    ensures ServerAnswered(k, s, Message(w), ServerCompletion(k, s, w))
  {
    if s.m.keym.Some? {
      assert |Mac(k, s.m.keym.value.kmp, 1, s.m.inp)| == 32;
    }
  }

  /** Whatever arrives, at whatever state. */
  lemma ServerStepSafe(k: Primitives, s: ServerState, blob: Blob, f: Fresh)
    requires HashLaws(k)
    ensures ServerKept(k, s, ServerReceive(k, s, blob, f).s)
    ensures ServerAnswered(k, s, blob, ServerReceive(k, s, blob, f))
  {
    hide ServerDiscovery, ServerNegotiation, ServerKeyExchange, ServerNoobId, ServerCompletion;
    if blob.Message? && blob.wire.errorCode.None? {
      var w := blob.wire;
      match w.type_ {
        case Some(1) => DiscoveryStep(k, s, w, f);
        case Some(2) => NegotiationStep(k, s, w, f);
        case Some(3) => KeyExchangeStep(k, s, w);
        case Some(5) => NoobIdStep(k, s, w);
        case Some(6) => CompletionStep(k, s, w);
        case _ =>
      }
    }
  }

  // ---- the peer ----

  ghost predicate PeerInv(k: Primitives, p: PeerState)
    requires IsHash(k.sha256)
  {
    && p.state in {Unregistered, Waiting, OobReceived, Registered}
    && (p.state == Registered ==> p.assoc.Some?)
    && (p.state == Waiting ==> p.m.keypair.Some?)
    && (p.m.suite.Some? ==> 1 <= p.dirp <= 3)
    && (p.state == OobReceived ==> p.m.noob != [])
    && NoobOk(k, p.m)
  }

  predicate PeerPanics(k: Primitives, p: PeerState, blob: Blob) {
    && blob.Message? && blob.wire.eap.None? && blob.wire.errorCode.None? && blob.wire.type_ == Some(3)
    && ParseKey(k, blob.wire.pks).Some? && ParseBytes(k, blob.wire.ns).Some? && p.m.suite.None?
  }

  ghost predicate PeerKept(k: Primitives, p: PeerState, p': PeerState)
    requires IsHash(k.sha256)
  {
    && (PeerInv(k, p) ==> PeerInv(k, p'))
    && (p.state != Unregistered ==> p'.state != Unregistered)
    && p'.m.noob == p.m.noob && p'.m.noobId == p.m.noobId
    && (p.m.suite.Some? ==> p'.m.suite.Some?)
  }

  /** A peer registers exactly when told `success`; errors and panics are as for the server. */
  predicate PeerAnswered(k: Primitives, p: PeerState, blob: Blob, step: PeerStep) {
    && (step.r.Aborted? <==> PeerPanics(k, p, blob))
    && (step.r.Aborted? ==> step.p == p)
    && (step.r.Reacted? ==> PeerOutcomeOk(p, blob, step.p, step.r.outcome))
  }

  predicate PeerOutcomeOk(p: PeerState, blob: Blob, p': PeerState, o: Outcome) {
    && ErrorIsFinal(o)
    && (o.error.Some? ==> p'.state == p.state && p'.assoc == p.assoc)
    && (o.success <==> blob.Message? && blob.wire.eap == Some("success"))
    && (o.success ==>
          && p'.m == p.m && p'.state == Registered && p'.assoc.Some?
          && (p.m.keym.Some? ==> p'.assoc.value.kz == p.m.keym.value.kz))
    && (!o.success ==> p'.assoc == p.assoc && (p'.state == Registered ==> p.state == Registered))
    && CodeKnown(o)
  }

  lemma PeerNegotiationStep(k: Primitives, p: PeerState, w: Wire)
    requires IsHash(k.sha256) && w.eap.None? && w.errorCode.None? && w.type_ == Some(2)
    ensures PeerKept(k, p, PeerNegotiation(k, p, w).p)
    ensures PeerAnswered(k, p, Message(w), PeerNegotiation(k, p, w))
  {
    hide ParseInt, ParseInts, ParseStr, ShowInt, MaxCommon, FirstSupported, SuiteFromId, NoobIdOf;
  }

  lemma PeerKeyExchangeStep(k: Primitives, p: PeerState, w: Wire, f: Fresh)
    requires IsHash(k.sha256) && w.eap.None? && w.errorCode.None? && w.type_ == Some(3)
    ensures PeerKept(k, p, PeerKeyExchange(k, p, w, f).p)
    ensures PeerAnswered(k, p, Message(w), PeerKeyExchange(k, p, w, f))
  {
    hide ParseKey, ParseStr, ParseBytes, NoobIdOf;
  }

  lemma PeerCompletionStep(k: Primitives, p: PeerState, w: Wire)
    requires IsHash(k.sha256) && w.eap.None? && w.errorCode.None? && w.type_ == Some(6)
    ensures PeerKept(k, p, PeerCompletion(k, p, w).p)
    ensures PeerAnswered(k, p, Message(w), PeerCompletion(k, p, w))
  {
    hide ParseBytes, Mac, CompletionKeys, NoobIdOf;
  }

  lemma PeerStepSafe(k: Primitives, p: PeerState, blob: Blob, f: Fresh)
    requires HashLaws(k)
    ensures PeerKept(k, p, PeerReceive(k, p, blob, f).p)
    ensures PeerAnswered(k, p, blob, PeerReceive(k, p, blob, f))
  {
    hide PeerNegotiation, PeerKeyExchange, PeerCompletion;
    if blob.Message? && blob.wire.eap.None? && blob.wire.errorCode.None? {
      var w := blob.wire;
      match w.type_ {
        case Some(2) => PeerNegotiationStep(k, p, w);
        case Some(3) => PeerKeyExchangeStep(k, p, w, f);
        case Some(6) => PeerCompletionStep(k, p, w);
        case _ =>
      }
    }
  }

  lemma NegotiationSendsNoMacp(k: Primitives, p: PeerState, w: Wire)
    ensures var r := PeerNegotiation(k, p, w).r; r.Reacted? && r.outcome.send.Some? ==> r.outcome.send.value.macp.None?
  {
  }

  lemma KeyExchangeSendsNoMacp(k: Primitives, p: PeerState, w: Wire, f: Fresh)
    ensures var r := PeerKeyExchange(k, p, w, f).r;
      r.Reacted? && r.outcome.send.Some? ==> r.outcome.send.value.macp.None?
  {
  }

  lemma NoobIdSendsNoMacp(k: Primitives, p: PeerState)
    ensures PeerDiscovery(k, p).macp.None?
    ensures var r := PeerNoobId(k, p); r.Reacted? && r.outcome.send.Some? ==> r.outcome.send.value.macp.None?
  {
  }

  lemma CompletionMacp(k: Primitives, p: PeerState, w: Wire)
    requires HashLaws(k)
    ensures var step := PeerCompletion(k, p, w);
      step.r.Reacted? && step.r.outcome.send.Some? && step.r.outcome.send.value.macp.Some? ==>
        && p.m.noob != [] && OrElse(ParseBytes(k, w.noobId), []) == p.m.noobId
        && ParseBytes(k, w.macs) == Some(Mac(k, DerivedOf(k, p.m).kms, 2, p.m.inp))
        && step.r.outcome.send.value.macp == Some(Quoted(k, Mac(k, DerivedOf(k, p.m).kmp, 1, p.m.inp)))
        && step.p == p.(m := p.m.(keym := Some(DerivedOf(k, p.m))))
  {
    assert |Mac(k, DerivedOf(k, p.m).kms, 2, p.m.inp)| == 32;
    hide HashLaws, Mac, CompletionKeys, ParseBytes;
  }

  /** A peer answers with its MACp only after the server's NoobId and MACs verified under its own Noob. */
  lemma PeerMacpMeansVerified(k: Primitives, p: PeerState, blob: Blob, f: Fresh)
    requires HashLaws(k)
    requires PeerReceive(k, p, blob, f).r.Reacted?
    requires var o := PeerReceive(k, p, blob, f).r.outcome; o.send.Some? && o.send.value.macp.Some?
    ensures blob.Message? && blob.wire.type_ == Some(6) && p.m.noob != []
    ensures OrElse(ParseBytes(k, blob.wire.noobId), []) == p.m.noobId
    ensures ParseBytes(k, blob.wire.macs) == Some(Mac(k, DerivedOf(k, p.m).kms, 2, p.m.inp))
    ensures PeerReceive(k, p, blob, f).r.outcome.send.value.macp ==
              Some(Quoted(k, Mac(k, DerivedOf(k, p.m).kmp, 1, p.m.inp)))
    ensures PeerReceive(k, p, blob, f).p == p.(m := p.m.(keym := Some(DerivedOf(k, p.m))))
  {
    hide HashLaws, Mac, CompletionKeys, ParseBytes, PeerNegotiation, PeerKeyExchange, PeerDiscovery;
    hide PeerCompletion, PeerNoobId;
    if blob.Message? {
      NegotiationSendsNoMacp(k, p, blob.wire);
      KeyExchangeSendsNoMacp(k, p, blob.wire, f);
      NoobIdSendsNoMacp(k, p);
      CompletionMacp(k, p, blob.wire);
    }
  }

  // ---- runs: any messages, any random values, OOB input at any time ----

  datatype Input = Received(blob: Blob, random: Fresh) | Oob(noob: Bytes)

  ghost predicate InputsOf(inputs: seq<Input>) {
    forall i :: 0 <= i < |inputs| ==> inputs[i].Received? ==> BlobOk(inputs[i].blob)
  }

  function ServerInput(k: Primitives, s: ServerState, i: Input): ServerState
    requires IsHash(k.sha256)
  {
    match i
    case Received(blob, f) => ServerReceive(k, s, blob, f).s
    case Oob(noob) => (match ServerOob(k, s, noob) case Ok(s') => s' case Err(_) => s)
  }

  function ServerRun(k: Primitives, s: ServerState, inputs: seq<Input>): ServerState
    requires IsHash(k.sha256)
  {
    if |inputs| == 0 then s else ServerInput(k, ServerRun(k, s, inputs[..|inputs| - 1]), inputs[|inputs| - 1])
  }

  function PeerInput(k: Primitives, p: PeerState, i: Input): PeerState
    requires IsHash(k.sha256)
  {
    match i
    case Received(blob, f) => PeerReceive(k, p, blob, f).p
    case Oob(noob) => (match PeerOob(k, p, noob) case Ok(p') => p' case Err(_) => p)
  }

  function PeerRun(k: Primitives, p: PeerState, inputs: seq<Input>): PeerState
    requires IsHash(k.sha256)
  {
    if |inputs| == 0 then p else PeerInput(k, PeerRun(k, p, inputs[..|inputs| - 1]), inputs[|inputs| - 1])
  }

  lemma ServerInputKeeps(k: Primitives, s: ServerState, i: Input)
    requires HashLaws(k) && ServerInv(k, s)
    ensures ServerInv(k, ServerInput(k, s, i))
    ensures s.state != Unregistered ==> ServerInput(k, s, i).state != Unregistered
  {
    if i.Received? {
      hide ServerReceive;
      ServerStepSafe(k, s, i.blob, i.random);
    }
  }

  lemma PeerInputKeeps(k: Primitives, p: PeerState, i: Input)
    requires HashLaws(k) && PeerInv(k, p)
    ensures PeerInv(k, PeerInput(k, p, i))
  {
    if i.Received? {
      hide PeerReceive;
      PeerStepSafe(k, p, i.blob, i.random);
    }
  }

  /** The invariant holds after every run, and a server that has begun stays begun. */
  lemma {:induction false} ServerRunInv(k: Primitives, info: string, inputs: seq<Input>)
    requires HashLaws(k)
    ensures ServerInv(k, ServerRun(k, NewServer(info), inputs))
    ensures forall n :: 0 <= n <= |inputs| && ServerRun(k, NewServer(info), inputs[..n]).state != Unregistered ==>
              ServerRun(k, NewServer(info), inputs).state != Unregistered
  {
    if |inputs| > 0 {
      hide ServerInput, ServerInv;
      var last := |inputs| - 1;
      ServerRunInv(k, info, inputs[..last]);
      ServerInputKeeps(k, ServerRun(k, NewServer(info), inputs[..last]), inputs[last]);
      forall n | 0 <= n <= last
        ensures inputs[..n] == inputs[..last][..n]
      {
      }
      assert inputs[..|inputs|] == inputs;
    }
  }

  lemma {:induction false} PeerRunInv(k: Primitives, info: string, inputs: seq<Input>)
    requires HashLaws(k)
    ensures PeerInv(k, PeerRun(k, NewPeer(info), inputs))
  {
    if |inputs| > 0 {
      hide PeerInput, PeerInv;
      var last := |inputs| - 1;
      PeerRunInv(k, info, inputs[..last]);
      PeerInputKeeps(k, PeerRun(k, NewPeer(info), inputs[..last]), inputs[last]);
    }
  }
}
