/** The last post of the Completion Exchange, and that every move of a lane keeps the invariant. */
module LanePairing {
  import opened Octets
  import opened Kdf
  import opened Primitives
  import opened Protocol
  import opened Pin
  import opened Info
  import opened Session
  import opened Node
  import opened Lanes
  import opened Exchange
  import opened LaneSafety

  // ---- Type 6 from the peer ----

  /** The last message: both sides hold the keys they derived. */
  ghost predicate Confirming(w: World, lane: Lane)
    requires IsHash(w.k.sha256)
  {
    && Submitting(w, lane)
    && var s, p := lane.inviterSlot.inviter.value.server, lane.joinerSlot.joiner.value.peer;
       && lane.submit == Some(Carry(MacpWire(w.k, p.m))) && s.m.noobId == p.m.noobId
       && s.m.keym == Some(DerivedOf(w.k, s.m)) && p.m.keym == Some(DerivedOf(w.k, p.m))
  }

  function RegisteredServer(k: Primitives, s: ServerState): ServerState
    requires IsHash(k.sha256)
  {
    s.(state := Registered, assoc := Some(Association(s.m.peerId, s.m.nai, 2, DerivedOf(k, s.m).kz)))
  }

  function RegisteredPeer(p: PeerState): PeerState
    requires p.m.keym.Some?
  {
    p.(state := Registered, assoc := Some(Association(p.m.peerId, p.m.nai, 2, p.m.keym.value.kz)))
  }

  /** What the inviter pins, if its machine registers and the joiner's PairingInfo is sound. */
  function InviterPairing(w: World, s: ServerState): Option<Paired>
    requires IsHash(w.k.sha256)
  {
    match ParsePairingInfo(w.k, w.joinerInfo)
    case Ok(id) => Some(Paired(id.info, id.certDer, DerivedOf(w.k, s.m).kz, 2))
    case Err(_) => None
  }

  /** The inviter has registered: it pins and reports success, or finds the joiner's PairingInfo unsound. */
  ghost predicate InviterDone(w: World, lane: Lane, step: SlotStep)
    requires IsHash(w.k.sha256) && lane.inviterSlot.inviter.Some?
  {
    var s := lane.inviterSlot.inviter.value.server;
    && step.pinned == InviterPairing(w, s)
    && (step.pinned.Some? ==>
          && step.reply == CompletionReply(w, ResultWire("success"))
          && step.slot == lane.inviterSlot.(inviter := Some(InviterState(
               RegisteredServer(w.k, s), Some(ParsePairingInfo(w.k, w.joinerInfo).value)))))
    && (step.pinned.None? ==> step.reply.Some? && step.reply.value.status == 400)
  }

  /** A machine that registers gives its session the joiner's identity and the node a pairing, or is refused. */
  lemma InviterRegisters(w: World, lane: Lane, msg: Wire, m: Move)
    requires WorldOk(w) && lane.inviterSlot.inviter.Some?
    requires var i := lane.inviterSlot.inviter.value;
      && i.joiner.None? && i.server.m.inp.peerInfo == w.joinerInfo
      && ServerReceive(w.k, i.server, Message(msg), m.atInviter) ==
           ServerStep(RegisteredServer(w.k, i.server),
                      Reacted(Outcome(Some(ResultWire("success")), true, true, None, None)))
    ensures InviterDone(w, lane, InviterHandles(w, lane, Carry(msg), m))
  {
    hide Lawful, ServerReceive, ParsePairingInfo, CompletionKeys;
  }

  const MACP_REFUSED := "MACp verification failed"

  /** The inviter on the peer's MACp: it registers, or, with another Noob, refuses with code 4001. */
  lemma MacpHandled(w: World, lane: Lane, m: Move)
    requires WorldOk(w) && Confirming(w, lane)
    ensures var step := InviterHandles(w, lane, lane.submit.value, m);
      || InviterDone(w, lane, step)
      || (&& lane.minted != lane.fed
          && step == SlotStep(lane.inviterSlot,
                              CompletionReply(w, ErrorWire(HMAC_VERIFICATION_FAILED, MACP_REFUSED)), None))
  {
    hide TextLaws, KeyLaws, InfoLaws, ServerReceive, ParsePairingInfo, ServerCompletion, HandleSlot;
    hide InviterPairing, InviterDone, CompletionKeys, Mac;
    var k, i, p := w.k, lane.inviterSlot.inviter.value, lane.joinerSlot.joiner.value.peer;
    ServerChecksMacp(k, i.server, p, NoobFromPin(lane.minted.value), NoobFromPin(lane.fed.value));
    ServerDispatch(k, i.server, MacpWire(k, p.m), m.atInviter);
    if ServerCompletion(k, i.server, MacpWire(k, p.m)).r.outcome.success {
      InviterRegisters(w, lane, MacpWire(k, p.m), m);
    } else {
      InviterPassesOn(w, lane, MacpWire(k, p.m), m, i.server, FailCode(HMAC_VERIFICATION_FAILED, MACP_REFUSED));
    }
  }

  /** On `success` the joiner pairs with the identity it captured and the key it derived. */
  lemma JoinerPairs(w: World, lane: Lane, s: Submit, f: Fresh)
    requires WorldOk(w) && lane.joinerSlot.joiner.Some? && !s.Notice?
    requires var j := lane.joinerSlot.joiner.value; j.peer.csp == 2 && j.peer.m.keym.Some? && j.inviter.Some?
    ensures var j := lane.joinerSlot.joiner.value;
      SubmitResult(w, lane, s, CompletionReply(w, ResultWire("success")), f) ==
        lane.(submit := Some(Notice(ACK, "")), joinerSlot := lane.joinerSlot.(joiner := None, pending := None),
              joinerPinned := Some(Paired(j.inviter.value.info, j.inviter.value.certDer, j.peer.m.keym.value.kz, 2)),
              last := Some(j.(peer := RegisteredPeer(j.peer))))
  {
    hide TextLaws, KeyLaws, InfoLaws, PeerReceive;
    PeerRegisters(w.k, lane.joinerSlot.joiner.value.peer, f);
  }

  /** The lane after the inviter has handled the peer's MACp. */
  function AfterMacp(w: World, lane: Lane, m: Move): Lane
    requires IsHash(w.k.sha256) && lane.submit.Some?
  {
    var step := InviterHandles(w, lane, lane.submit.value, m);
    lane.(inviterSlot := step.slot, inviterPinned := if step.pinned.Some? then step.pinned else lane.inviterPinned)
  }

  lemma PinsTogether(w: World, lane: Lane, m: Move)
    requires WorldOk(w) && Confirming(w, lane)
    ensures var next := AfterMacp(w, lane, m);
      PinFacts(w, next) && Stuck(w, next.(submit := None))
  {
    hide TextLaws, KeyLaws, InfoLaws, ParsePairingInfo, InviterHandles, CompletionKeys;
    MacpHandled(w, lane, m);
  }

  /** Both have paired: the machines are registered, and each node holds the other's identity. */
  ghost predicate BothPaired(w: World, lane: Lane, next: Lane)
    requires IsHash(w.k.sha256) && Confirming(w, lane)
  {
    var i, j := lane.inviterSlot.inviter.value, lane.joinerSlot.joiner.value;
    && ParsePairingInfo(w.k, w.joinerInfo).Ok?
    && next.inviterPinned == InviterPairing(w, i.server)
    && next.inviterSlot.inviter == Some(InviterState(RegisteredServer(w.k, i.server),
                                                     Some(ParsePairingInfo(w.k, w.joinerInfo).value)))
    && next.joinerPinned == Some(Paired(j.inviter.value.info, j.inviter.value.certDer, DerivedOf(w.k, j.peer.m).kz, 2))
    && next.last == Some(j.(peer := RegisteredPeer(j.peer)))
    && next.joinerSlot.joiner.None? && next.joinerSlot.pending.None? && next.submit == Some(Notice(ACK, ""))
    && next.minted == lane.minted && next.fed == lane.fed
  }

  /** The last post: both pair, or nothing more is pinned; with one PIN and a sound PairingInfo both do. */
  lemma MacpPost(w: World, lane: Lane, m: Move)
    requires WorldOk(w) && Confirming(w, lane) && Posting(m)
    ensures var next := SubmitMove(w, lane, m);
      && (Stuck(w, next) || Ended(w, next))
      && (lane.minted == lane.fed && ParsePairingInfo(w.k, w.joinerInfo).Ok? ==> BothPaired(w, lane, next))
  {
    hide TextLaws, KeyLaws, InfoLaws, PeerReceive, ParsePairingInfo, InviterHandles, SubmitResult;
    hide CompletionKeys, Mac, PeerErrorMsg;
    hide NoobFromPin, PinNoobId;
    var k, i, j := w.k, lane.inviterSlot.inviter.value, lane.joinerSlot.joiner.value;
    var s := lane.submit.value;
    MacpHandled(w, lane, m);
    PinsTogether(w, lane, m);
    var after := AfterMacp(w, lane, m);
    var step := InviterHandles(w, lane, s, m);
    if step.pinned.Some? {
      JoinerPairs(w, after, s, m.atJoiner);
      if lane.minted == lane.fed {
        SameNoobSameKeys(k, i.server, j.peer, NoobFromPin(lane.minted.value), NoobFromPin(lane.fed.value));
      }
    } else if InviterDone(w, lane, step) {
      ReplyRefused(w, after, s, step.reply, m.atJoiner);
    } else {
      var error := ErrorWire(HMAC_VERIFICATION_FAILED, MACP_REFUSED);
      PeerHearsError(k, j.peer, HMAC_VERIFICATION_FAILED, MACP_REFUSED, m.atJoiner);
      JoinerRefuses(w, after, s, error, m.atJoiner, j.peer,
                    PeerReceive(k, j.peer, Message(error), m.atJoiner).r.outcome);
    }
  }

  /** A reply that is no success, or none at all, ends `submit_pin` with an error. */
  lemma ReplyRefused(w: World, lane: Lane, s: Submit, reply: Option<Reply>, f: Fresh)
    requires WorldOk(w) && lane.joinerSlot.joiner.Some?
    requires reply.None? || reply.value.status == 400
    ensures SubmitResult(w, lane, s, reply, f) == lane.(submit := None)
  {
    hide Lawful, SubmitIter;
  }
}
