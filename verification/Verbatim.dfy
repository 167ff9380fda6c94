/**
 * The MAC inputs are the conversation: in every run each of them is, verbatim, a field of the last message of its
 * kind that the machine sent or took, so an accepted MAC means that both machines saw the same messages.
 */
module Verbatim {
  import opened Octets
  import opened Decimal
  import opened Negotiation
  import opened Kdf
  import opened MacArray
  import opened Primitives
  import opened Protocol
  import opened Invariants
  import opened Transcript

  // ---- the messages of a run ----

  /** The message is handled without an error. */
  predicate Takes(blob: Blob, r: Reaction, t: int) {
    && blob.Message? && blob.wire.type_ == Some(t) && blob.wire.errorCode.None?
    && r.Reacted? && r.outcome.error.None?
  }

  /** A peer takes one with an `eap` field as a result, whatever its type. */
  predicate PeerTakes(blob: Blob, r: Reaction, t: int) {
    Takes(blob, r, t) && blob.wire.eap.None?
  }

  predicate Sends(r: Reaction, t: int) {
    Sent(r).Some? && Sent(r).value.type_ == Some(t)
  }

  /** The last message of type `t` that the server sent. */
  function ServerSent(k: Primitives, info: string, inputs: seq<Input>, t: int): Option<Wire>
    requires IsHash(k.sha256)
  {
    if |inputs| == 0 then None
    else
      var n := |inputs| - 1;
      var i := inputs[n];
      if i.Received? && Sends(ServerReceive(k, ServerRun(k, NewServer(info), inputs[..n]), i.blob, i.random).r, t) then
        Sent(ServerReceive(k, ServerRun(k, NewServer(info), inputs[..n]), i.blob, i.random).r)
      else ServerSent(k, info, inputs[..n], t)
  }

  /** The last message of type `t` that it took. */
  function ServerTook(k: Primitives, info: string, inputs: seq<Input>, t: int): Option<Wire>
    requires IsHash(k.sha256)
  {
    if |inputs| == 0 then None
    else
      var n := |inputs| - 1;
      var i := inputs[n];
      if
        && i.Received?
        && Takes(i.blob, ServerReceive(k, ServerRun(k, NewServer(info), inputs[..n]), i.blob, i.random).r, t)
      then Some(i.blob.wire)
      else ServerTook(k, info, inputs[..n], t)
  }

  function PeerSent(k: Primitives, info: string, inputs: seq<Input>, t: int): Option<Wire>
    requires IsHash(k.sha256)
  {
    if |inputs| == 0 then None
    else
      var n := |inputs| - 1;
      var i := inputs[n];
      if i.Received? && Sends(PeerReceive(k, PeerRun(k, NewPeer(info), inputs[..n]), i.blob, i.random).r, t) then
        Sent(PeerReceive(k, PeerRun(k, NewPeer(info), inputs[..n]), i.blob, i.random).r)
      else PeerSent(k, info, inputs[..n], t)
  }

  function PeerTook(k: Primitives, info: string, inputs: seq<Input>, t: int): Option<Wire>
    requires IsHash(k.sha256)
  {
    if |inputs| == 0 then None
    else
      var n := |inputs| - 1;
      var i := inputs[n];
      if i.Received? && PeerTakes(i.blob, PeerReceive(k, PeerRun(k, NewPeer(info), inputs[..n]), i.blob, i.random).r, t)
      then Some(i.blob.wire)
      else PeerTook(k, info, inputs[..n], t)
  }

  // ---- the fields of the four messages ----

  /** The text of a field, or nothing if there is no such message or no such field in it. */
  function Text(w: Option<Wire>, field: Wire -> Option<string>): string {
    if w.Some? && field(w.value).Some? then field(w.value).value else ""
  }

  /** The same with an object in place of nothing, if there is a message. */
  function ObjectText(w: Option<Wire>, field: Wire -> Option<string>): string {
    if w.Some? && Text(w, field) == "" then "{}" else Text(w, field)
  }

  predicate IsOffer(inp: MacInputs, w: Option<Wire>) {
    && inp.vers == Text(w, (w: Wire) => w.vers) && inp.peerId == Text(w, (w: Wire) => w.peerId)
    && inp.cryptosuites == Text(w, (w: Wire) => w.cryptosuites) && inp.dirs == Text(w, (w: Wire) => w.dirs)
  }

  predicate IsChoice(inp: MacInputs, w: Option<Wire>) {
    && inp.verp == Text(w, (w: Wire) => w.verp) && inp.cryptosuitep == Text(w, (w: Wire) => w.cryptosuitep)
    && inp.dirp == Text(w, (w: Wire) => w.dirp)
  }

  predicate IsServerKey(inp: MacInputs, w: Option<Wire>) {
    inp.pks == Text(w, (w: Wire) => w.pks) && inp.ns == Text(w, (w: Wire) => w.ns)
  }

  predicate IsPeerKey(inp: MacInputs, w: Option<Wire>) {
    inp.pkp == Text(w, (w: Wire) => w.pkp) && inp.np == Text(w, (w: Wire) => w.np)
  }

  /** The server's inputs are the offer and key it sent and the choice and key it took. */
  predicate ServerInputs(inp: MacInputs, offer: Option<Wire>, choice: Option<Wire>, own: Option<Wire>,
                         other: Option<Wire>) {
    && IsOffer(inp, offer) && inp.serverInfo == Text(offer, (w: Wire) => w.serverInfo)
    && IsChoice(inp, choice) && inp.peerInfo == ObjectText(choice, (w: Wire) => w.peerInfo)
    && IsServerKey(inp, own) && IsPeerKey(inp, other)
  }

  /** The peer's are the offer and key it took and the choice and key it sent. */
  predicate PeerInputs(inp: MacInputs, offer: Option<Wire>, choice: Option<Wire>, own: Option<Wire>,
                       other: Option<Wire>) {
    && IsOffer(inp, offer) && inp.serverInfo == ObjectText(offer, (w: Wire) => w.serverInfo)
    && IsChoice(inp, choice) && inp.peerInfo == Text(choice, (w: Wire) => w.peerInfo)
    && IsServerKey(inp, other) && IsPeerKey(inp, own)
  }

  // ---- one step ----

  /** The message that replaces another of its kind, if there is one. */
  function Newer(cond: bool, w: Option<Wire>, before: Option<Wire>): Option<Wire> {
    if cond then w else before
  }

  ghost predicate ServerStepKeeps(s: ServerState, blob: Blob, step: ServerStep) {
    forall offer, choice, own, other :: ServerInputs(s.m.inp, offer, choice, own, other) ==>
      ServerInputs(step.s.m.inp, Newer(Sends(step.r, 2), Sent(step.r), offer),
                   Newer(Takes(blob, step.r, 2), if blob.Message? then Some(blob.wire) else None, choice),
                   Newer(Sends(step.r, 3), Sent(step.r), own),
                   Newer(Takes(blob, step.r, 3), if blob.Message? then Some(blob.wire) else None, other))
  }

  /** A step that sends and takes nothing of those kinds, and leaves the inputs. */
  lemma ServerIdle(s: ServerState, blob: Blob, step: ServerStep)
    requires step.s.m.inp == s.m.inp && !Sends(step.r, 2) && !Sends(step.r, 3)
    requires !Takes(blob, step.r, 2) && !Takes(blob, step.r, 3)
    ensures ServerStepKeeps(s, blob, step)
  {
    hide ServerInputs;
  }

  lemma DiscoveryVerbatim(k: Primitives, s: ServerState, w: Wire, f: Fresh)
    requires IsHash(k.sha256) && w.type_ == Some(1)
    ensures ServerStepKeeps(s, Message(w), ServerDiscovery(k, s, w, f))
  {
    hide ParseStr, Mac, CompletionKeys, ShowInts;
  }

  /** A choice is taken and answered with the own key. */
  lemma ServerAnswersChoice(s: ServerState, w: Wire, step: ServerStep, key: Wire)
    requires Takes(Message(w), step.r, 2) && Sends(step.r, 3) && Sent(step.r) == Some(key)
    requires key.pks.Some? && key.ns.Some?
    requires step.s.m.inp == s.m.inp.(verp := Get(w.verp), cryptosuitep := Get(w.cryptosuitep), dirp := Get(w.dirp),
                                      peerInfo := EnsureObj(Get(w.peerInfo)), nai := step.s.m.inp.nai,
                                      pks := key.pks.value, ns := key.ns.value)
    ensures ServerStepKeeps(s, Message(w), step)
  {
  }

  lemma NegotiationVerbatim(k: Primitives, s: ServerState, w: Wire, f: Fresh)
    requires w.type_ == Some(2) && w.errorCode.None?
    ensures ServerStepKeeps(s, Message(w), ServerNegotiation(k, s, w, f))
  {
    hide ParseInt, PeerIdOk, VersionAccepted, SuiteAccepted, DirAccepted, ServerStepKeeps, EnsureObj;
    var step := ServerNegotiation(k, s, w, f);
    if step.r.outcome.error.Some? {
      ServerIdle(s, Message(w), step);
    } else {
      ServerAnswersChoice(s, w, step, step.r.outcome.send.value);
    }
  }

  lemma ServerTakesKey(s: ServerState, w: Wire, step: ServerStep)
    requires Takes(Message(w), step.r, 3) && !Sends(step.r, 2) && !Sends(step.r, 3)
    requires step.s.m.inp == s.m.inp.(pkp := Get(w.pkp), np := Get(w.np))
    ensures ServerStepKeeps(s, Message(w), step)
  {
  }

  lemma KeyExchangeVerbatim(k: Primitives, s: ServerState, w: Wire)
    requires w.type_ == Some(3) && w.errorCode.None?
    ensures ServerStepKeeps(s, Message(w), ServerKeyExchange(k, s, w))
  {
    hide ParseKey, ParseStr, ParseBytes, PeerIdOk, ServerStepKeeps;
    var step := ServerKeyExchange(k, s, w);
    if step.r.Aborted? || step.r.outcome.error.Some? {
      ServerIdle(s, Message(w), step);
    } else {
      ServerTakesKey(s, w, step);
    }
  }

  lemma OthersVerbatim(k: Primitives, s: ServerState, blob: Blob, f: Fresh)
    requires IsHash(k.sha256)
    requires blob.Message? && blob.wire.errorCode.None? ==> blob.wire.type_ !in {Some(1), Some(2), Some(3)}
    ensures ServerStepKeeps(s, blob, ServerReceive(k, s, blob, f))
  {
    hide ParseBytes, PeerIdOk, Mac, CompletionKeys, ServerDiscovery, ServerNegotiation, ServerKeyExchange;
    hide ServerStepKeeps;
    ServerIdle(s, blob, ServerReceive(k, s, blob, f));
  }

  lemma ServerStepVerbatim(k: Primitives, s: ServerState, blob: Blob, f: Fresh)
    requires IsHash(k.sha256)
    ensures ServerStepKeeps(s, blob, ServerReceive(k, s, blob, f))
  {
    hide ServerDiscovery, ServerNegotiation, ServerKeyExchange, ServerNoobId, ServerCompletion, ServerStepKeeps;
    if blob.Message? && blob.wire.errorCode.None? && blob.wire.type_ in {Some(1), Some(2), Some(3)} {
      var w := blob.wire;
      if w.type_ == Some(1) {
        DiscoveryVerbatim(k, s, w, f);
      } else if w.type_ == Some(2) {
        NegotiationVerbatim(k, s, w, f);
      } else {
        KeyExchangeVerbatim(k, s, w);
      }
    } else {
      OthersVerbatim(k, s, blob, f);
    }
  }

  /** Taking the Noob changes one input alone. */
  lemma NoobAlone(k: Primitives, m: Method, noob: Bytes)
    requires IsHash(k.sha256)
    ensures SetNoob(k, m, noob).inp == m.inp.(noob := Quoted(k, noob))
  {
    hide NoobIdOf;
  }

  lemma ServerOobVerbatim(k: Primitives, s: ServerState, noob: Bytes, offer: Option<Wire>, choice: Option<Wire>,
                          own: Option<Wire>, other: Option<Wire>)
    requires IsHash(k.sha256) && ServerOob(k, s, noob).Ok? && ServerInputs(s.m.inp, offer, choice, own, other)
    ensures ServerInputs(ServerOob(k, s, noob).value.m.inp, offer, choice, own, other)
  {
    NoobAlone(k, s.m, noob);
    hide SetNoob;
  }

  /** After any run the server's inputs are the messages it sent and took last. */
  lemma {:induction false} ServerInputsVerbatim(k: Primitives, info: string, inputs: seq<Input>)
    requires IsHash(k.sha256)
    ensures ServerInputs(ServerRun(k, NewServer(info), inputs).m.inp,
                         ServerSent(k, info, inputs, 2), ServerTook(k, info, inputs, 2),
                         ServerSent(k, info, inputs, 3), ServerTook(k, info, inputs, 3))
  {
    hide ServerReceive, ServerOob, ServerInputs;
    if |inputs| == 0 {
      NothingSaid();
    } else {
      var n := |inputs| - 1;
      var s := ServerRun(k, NewServer(info), inputs[..n]);
      ServerInputsVerbatim(k, info, inputs[..n]);
      match inputs[n] {
        case Received(blob, f) =>
          ServerStepVerbatim(k, s, blob, f);
        case Oob(noob) =>
          if ServerOob(k, s, noob).Ok? {
            ServerOobVerbatim(k, s, noob, ServerSent(k, info, inputs[..n], 2), ServerTook(k, info, inputs[..n], 2),
                              ServerSent(k, info, inputs[..n], 3), ServerTook(k, info, inputs[..n], 3));
          }
      }
    }
  }

  lemma NothingSaid()
    ensures ServerInputs(NO_INPUTS, None, None, None, None) && PeerInputs(NO_INPUTS, None, None, None, None)
  {
  }

  // ---- the peer ----

  ghost predicate PeerStepKeeps(p: PeerState, blob: Blob, step: PeerStep) {
    forall offer, choice, own, other :: PeerInputs(p.m.inp, offer, choice, own, other) ==>
      PeerInputs(step.p.m.inp,
                 Newer(PeerTakes(blob, step.r, 2), if blob.Message? then Some(blob.wire) else None, offer),
                 Newer(Sends(step.r, 2), Sent(step.r), choice),
                 Newer(Sends(step.r, 3), Sent(step.r), own),
                 Newer(PeerTakes(blob, step.r, 3), if blob.Message? then Some(blob.wire) else None, other))
  }

  lemma PeerIdle(p: PeerState, blob: Blob, step: PeerStep)
    requires step.p.m.inp == p.m.inp && !Sends(step.r, 2) && !Sends(step.r, 3)
    requires !PeerTakes(blob, step.r, 2) && !PeerTakes(blob, step.r, 3)
    ensures PeerStepKeeps(p, blob, step)
  {
    hide PeerInputs;
  }

  /** An offer is taken and answered with the choice. */
  lemma PeerAnswersOffer(p: PeerState, w: Wire, step: PeerStep, choice: Wire)
    requires PeerTakes(Message(w), step.r, 2) && Sends(step.r, 2) && Sent(step.r) == Some(choice)
    requires choice.verp.Some? && choice.cryptosuitep.Some? && choice.dirp.Some? && choice.peerInfo.Some?
    requires step.p.m.inp == p.m.inp.(vers := Get(w.vers), peerId := Get(w.peerId), cryptosuites := Get(w.cryptosuites),
                                      dirs := Get(w.dirs), serverInfo := EnsureObj(Get(w.serverInfo)),
                                      verp := choice.verp.value, cryptosuitep := choice.cryptosuitep.value,
                                      dirp := choice.dirp.value, peerInfo := choice.peerInfo.value,
                                      nai := step.p.m.inp.nai)
    ensures PeerStepKeeps(p, Message(w), step)
  {
  }

  lemma PeerNegotiationVerbatim(k: Primitives, p: PeerState, w: Wire)
    requires w.type_ == Some(2) && w.errorCode.None? && w.eap.None?
    ensures PeerStepKeeps(p, Message(w), PeerNegotiation(k, p, w))
  {
    hide ParseStr, ParseInts, ParseInt, MaxCommon, FirstSupported, ChooseDir, ShowInt, SuiteFromId, PeerStepKeeps;
    hide EnsureObj;
    var step := PeerNegotiation(k, p, w);
    if step.r.outcome.error.Some? {
      PeerIdle(p, Message(w), step);
    } else {
      PeerAnswersOffer(p, w, step, step.r.outcome.send.value);
    }
  }

  lemma PeerKeyExchangeVerbatim(k: Primitives, p: PeerState, w: Wire, f: Fresh)
    requires w.type_ == Some(3) && w.errorCode.None? && w.eap.None?
    ensures PeerStepKeeps(p, Message(w), PeerKeyExchange(k, p, w, f))
  {
    hide ParseKey, ParseBytes;
  }

  lemma PeerOthersVerbatim(k: Primitives, p: PeerState, blob: Blob, f: Fresh)
    requires IsHash(k.sha256)
    requires blob.Message? && blob.wire.errorCode.None? && blob.wire.eap.None? ==>
               blob.wire.type_ !in {Some(2), Some(3)}
    ensures PeerStepKeeps(p, blob, PeerReceive(k, p, blob, f))
  {
    hide ParseBytes, Mac, CompletionKeys, PeerNegotiation, PeerKeyExchange, PeerStepKeeps;
    PeerIdle(p, blob, PeerReceive(k, p, blob, f));
  }

  lemma PeerStepVerbatim(k: Primitives, p: PeerState, blob: Blob, f: Fresh)
    requires IsHash(k.sha256)
    ensures PeerStepKeeps(p, blob, PeerReceive(k, p, blob, f))
  {
    hide PeerNegotiation, PeerKeyExchange, PeerCompletion, PeerDiscovery, PeerNoobId, PeerStepKeeps;
    if blob.Message? && blob.wire.errorCode.None? && blob.wire.eap.None? && blob.wire.type_ in {Some(2), Some(3)} {
      var w := blob.wire;
      if w.type_ == Some(2) {
        PeerNegotiationVerbatim(k, p, w);
      } else {
        PeerKeyExchangeVerbatim(k, p, w, f);
      }
    } else {
      PeerOthersVerbatim(k, p, blob, f);
    }
  }

  lemma PeerOobVerbatim(k: Primitives, p: PeerState, noob: Bytes, offer: Option<Wire>, choice: Option<Wire>,
                        own: Option<Wire>, other: Option<Wire>)
    requires IsHash(k.sha256) && PeerOob(k, p, noob).Ok? && PeerInputs(p.m.inp, offer, choice, own, other)
    ensures PeerInputs(PeerOob(k, p, noob).value.m.inp, offer, choice, own, other)
  {
    NoobAlone(k, p.m, noob);
    hide SetNoob;
  }

  /** After any run the peer's inputs are the messages it took and sent last. */
  lemma {:induction false} PeerInputsVerbatim(k: Primitives, info: string, inputs: seq<Input>)
    requires IsHash(k.sha256)
    ensures PeerInputs(PeerRun(k, NewPeer(info), inputs).m.inp,
                       PeerTook(k, info, inputs, 2), PeerSent(k, info, inputs, 2),
                       PeerSent(k, info, inputs, 3), PeerTook(k, info, inputs, 3))
  {
    hide PeerReceive, PeerOob, PeerInputs;
    if |inputs| == 0 {
      NothingSaid();
    } else {
      var n := |inputs| - 1;
      var p := PeerRun(k, NewPeer(info), inputs[..n]);
      PeerInputsVerbatim(k, info, inputs[..n]);
      match inputs[n] {
        case Received(blob, f) =>
          PeerStepVerbatim(k, p, blob, f);
        case Oob(noob) =>
          if PeerOob(k, p, noob).Ok? {
            PeerOobVerbatim(k, p, noob, PeerTook(k, info, inputs[..n], 2), PeerSent(k, info, inputs[..n], 2),
                            PeerSent(k, info, inputs[..n], 3), PeerTook(k, info, inputs[..n], 3));
          }
      }
    }
  }

  // ---- both ----

  /** Two fields show the same element of the array, nothing being the same as an empty JSON string. */
  predicate SameText(a: string, b: string) {
    El(a) == El(b)
  }

  predicate SameOffer(a: Option<Wire>, b: Option<Wire>) {
    && SameText(Text(a, (w: Wire) => w.vers), Text(b, (w: Wire) => w.vers))
    && SameText(Text(a, (w: Wire) => w.peerId), Text(b, (w: Wire) => w.peerId))
    && SameText(Text(a, (w: Wire) => w.cryptosuites), Text(b, (w: Wire) => w.cryptosuites))
    && SameText(Text(a, (w: Wire) => w.dirs), Text(b, (w: Wire) => w.dirs))
    && SameText(Text(a, (w: Wire) => w.serverInfo), ObjectText(b, (w: Wire) => w.serverInfo))
  }

  predicate SameChoice(a: Option<Wire>, b: Option<Wire>) {
    && SameText(Text(a, (w: Wire) => w.verp), Text(b, (w: Wire) => w.verp))
    && SameText(Text(a, (w: Wire) => w.cryptosuitep), Text(b, (w: Wire) => w.cryptosuitep))
    && SameText(Text(a, (w: Wire) => w.dirp), Text(b, (w: Wire) => w.dirp))
    && SameText(Text(a, (w: Wire) => w.peerInfo), ObjectText(b, (w: Wire) => w.peerInfo))
  }

  predicate SameKeys(a: Option<Wire>, b: Option<Wire>, c: Option<Wire>, d: Option<Wire>) {
    && SameText(Text(a, (w: Wire) => w.pks), Text(b, (w: Wire) => w.pks))
    && SameText(Text(a, (w: Wire) => w.ns), Text(b, (w: Wire) => w.ns))
    && SameText(Text(c, (w: Wire) => w.pkp), Text(d, (w: Wire) => w.pkp))
    && SameText(Text(c, (w: Wire) => w.np), Text(d, (w: Wire) => w.np))
  }

  /** What one sent the other took, in all four messages. */
  ghost predicate SameConversation(k: Primitives, infoS: string, toServer: seq<Input>, infoP: string,
                                   toPeer: seq<Input>)
    requires IsHash(k.sha256)
  {
    && SameOffer(ServerSent(k, infoS, toServer, 2), PeerTook(k, infoP, toPeer, 2))
    && SameChoice(PeerSent(k, infoP, toPeer, 2), ServerTook(k, infoS, toServer, 2))
    && SameKeys(ServerSent(k, infoS, toServer, 3), PeerTook(k, infoP, toPeer, 3),
                PeerSent(k, infoP, toPeer, 3), ServerTook(k, infoS, toServer, 3))
  }

  lemma SameFieldsSameConversation(k: Primitives, infoS: string, toServer: seq<Input>, infoP: string,
                                   toPeer: seq<Input>)
    requires IsHash(k.sha256)
    requires SameFields(ServerRun(k, NewServer(infoS), toServer).m.inp, PeerRun(k, NewPeer(infoP), toPeer).m.inp)
    ensures SameConversation(k, infoS, toServer, infoP, toPeer)
  {
    ServerInputsVerbatim(k, infoS, toServer);
    PeerInputsVerbatim(k, infoP, toPeer);
    hide ServerRun, PeerRun, ServerSent, ServerTook, PeerSent, PeerTook, NewServer, NewPeer, El;
  }

  /**
   * Whatever was delivered to either side before: a server that accepts the peer's MACp
   * has sent the offer and the key that the peer took, and taken the choice and the key that the peer sent.
   */
  lemma AcceptanceMeansSameConversation(
    k: Primitives, infoS: string, toServer: seq<Input>, s: ServerState, infoP: string, toPeer: seq<Input>, p: PeerState,
    last: Blob, fp: Fresh, reply: Wire, fs: Fresh)
    requires HashLaws(k) && TextLaws(k) && Reached(k, infoS, toServer, s, infoP, toPeer, p)
    requires PeerComputesMacp(k, p, last, fp, reply.macp)
    requires ServerAccepts(k, s, reply, fs)
    requires s.m.keym.Some? ==> NoMacCollision(k, s.m.keym.value.kmp, s.m.inp, DerivedOf(k, p.m).kmp, p.m.inp, 1)
    ensures SameConversation(k, infoS, toServer, infoP, toPeer)
  {
    ServerAcceptanceAgrees(k, infoS, toServer, s, infoP, toPeer, p, last, fp, reply, fs);
    hide TextLaws, SameFields, PeerComputesMacp, ServerAccepts, SameConversation, DerivedOf;
    SameFieldsSameConversation(k, infoS, toServer, infoP, toPeer);
  }

  /** And the other way round, on the server's MACs. */
  lemma PeerAcceptanceMeansSameConversation(
    k: Primitives, infoS: string, toServer: seq<Input>, s: ServerState, infoP: string, toPeer: seq<Input>, p: PeerState,
    last: Blob, fs: Fresh, reply: Wire, fp: Fresh)
    requires HashLaws(k) && TextLaws(k) && Reached(k, infoS, toServer, s, infoP, toPeer, p)
    requires ServerComputesMacs(k, s, last, fs, reply.macs)
    requires PeerAccepts(k, p, reply, fp)
    requires NoMacCollision(k, DerivedOf(k, s.m).kms, s.m.inp, DerivedOf(k, p.m).kms, p.m.inp, 2)
    requires NoCollision(k.sha256, BlockInput(s.m.z, FixedInfo(s.m.np, s.m.ns, s.m.noob), 7),
                         BlockInput(p.m.z, FixedInfo(p.m.np, p.m.ns, p.m.noob), 7))
    ensures SameConversation(k, infoS, toServer, infoP, toPeer)
  {
    PeerAcceptanceAgrees(k, infoS, toServer, s, infoP, toPeer, p, last, fs, reply, fp);
    hide TextLaws, SameFields, ServerComputesMacs, PeerAccepts, SameConversation, DerivedOf, NoMacCollision;
    hide NoCollision;
    SameFieldsSameConversation(k, infoS, toServer, infoP, toPeer);
  }
}
