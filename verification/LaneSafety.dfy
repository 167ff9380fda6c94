/** What holds after every run of a lane, whatever is lost and whichever PIN is entered. */
module LaneSafety {
  import opened Octets
  import opened Kdf
  import opened Primitives
  import opened Protocol
  import opened Pin
  import opened Info
  import opened Session
  import opened Node
  import opened Lanes
  import opened Exchange
  import opened Invariants

  predicate WorldTexts(w: World) {
    w.id != "" && w.inviterInfo != "" && w.joinerInfo != ""
  }

  ghost predicate WorldOk(w: World) {
    Lawful(w.k) && WorldTexts(w)
  }

  // ---- the phases a lane goes through ----

  predicate NothingPinned(lane: Lane) {
    lane.inviterPinned.None? && lane.joinerPinned.None?
  }

  predicate ServerDone(s: ServerState) {
    s.state == Registered || s.assoc.Some?
  }

  predicate PeerDone(p: PeerState) {
    p.state == Registered || p.assoc.Some?
  }

  /** No machine of the lane, the joiner's last one included, has registered or holds an association. */
  predicate NobodyRegistered(lane: Lane) {
    && (lane.inviterSlot.inviter.Some? ==> !ServerDone(lane.inviterSlot.inviter.value.server))
    && (lane.joinerSlot.joiner.Some? ==> !PeerDone(lane.joinerSlot.joiner.value.peer))
    && (lane.last.Some? ==> !PeerDone(lane.last.value.peer))
  }

  // How far the Initial Exchange has come: nothing sent, the offer to be sent, the key to be sent.

  predicate Starting(w: World, inv: Invite, slot: Slot) {
    inv.i == NewInviter(w.inviterInfo) && inv.msg == START && slot == EMPTY_SLOT
  }

  predicate Offering(w: World, inv: Invite, slot: Slot) {
    && inv.i.joiner.None? && Offered(w.k, inv.i.server, inv.msg, w.inviterInfo)
    && slot == Slot(Some(NewJoiner(w.joinerInfo)), None, None)
  }

  predicate Keying(w: World, inv: Invite, slot: Slot) {
    && inv.i.joiner.None? && inv.i.server.m.keypair.Some?
    && slot.joiner.Some? && slot.joiner.value.inviter.None? && slot.inviter.None? && slot.pending.None?
    && Keyed(w.k, inv.i.server, slot.joiner.value.peer, inv.msg, w.inviterInfo, w.joinerInfo,
             inv.i.server.m.keypair.value.secret)
  }

  predicate InviteStage(w: World, inv: Invite, slot: Slot) {
    Starting(w, inv, slot) || Offering(w, inv, slot) || Keying(w, inv, slot)
  }

  predicate Inviting(w: World, lane: Lane) {
    && lane.started && lane.invite.Some? && lane.submit.None? && lane.inviterSlot == EMPTY_SLOT
    && lane.minted.None? && lane.fed.None? && NothingPinned(lane) && lane.last.None?
    && InviteStage(w, lane.invite.value, lane.joinerSlot)
  }

  /** The invite came to nothing: the inviter holds no session for it and never will. */
  predicate Dead(lane: Lane) {
    && lane.started && lane.invite.None? && (lane.submit.None? || lane.submit == Some(Kickoff))
    && lane.inviterSlot.inviter.None? && NothingPinned(lane) && NobodyRegistered(lane)
  }

  /** Both sessions stand and are linked; the inviter's holds the minted PIN's Noob. */
  ghost predicate Standing(w: World, lane: Lane)
    requires IsHash(w.k.sha256)
  {
    && lane.started && lane.invite.None? && NothingPinned(lane) && NobodyRegistered(lane)
    && lane.minted.Some? && IsValidPin(lane.minted.value)
    && lane.inviterSlot.inviter.Some? && lane.joinerSlot.joiner.Some?
    && var i, j := lane.inviterSlot.inviter.value, lane.joinerSlot.joiner.value;
       && i.joiner.None? && i.server.m.inp.peerInfo == w.joinerInfo
       && j.inviter.Some? && ParsePairingInfo(w.k, w.inviterInfo) == Ok(j.inviter.value)
  }

  /** The PIN has not been entered yet, and the invite waits for it in `pending`. */
  ghost predicate Invited(w: World, lane: Lane)
    requires IsHash(w.k.sha256)
  {
    && Standing(w, lane) && lane.submit.None? && lane.fed.None?
    && var s, p := lane.inviterSlot.inviter.value.server, lane.joinerSlot.joiner.value.peer;
       && Linked(s, p) && s.state == Waiting && p.state == Waiting && s.m.keym.None?
       && HasNoob(w.k, s.m, NoobFromPin(lane.minted.value))
       && lane.joinerSlot.pending == Some(PendingOf(w.id, lane.joinerSlot.joiner.value.inviter.value.info))
  }

  /** How far the Completion Exchange has come. */
  ghost predicate SubmitStage(k: Primitives, submit: Submit, s: ServerState, p: PeerState)
    requires IsHash(k.sha256)
  {
    || submit == Kickoff
    || submit == Carry(PeerDiscovery(k, p))
    || submit == Carry(NoobIdWire(k, p.m))
    || (submit == Carry(MacpWire(k, p.m)) && s.m.noobId == p.m.noobId
        && s.m.keym == Some(DerivedOf(k, s.m)) && p.m.keym == Some(DerivedOf(k, p.m)))
  }

  ghost predicate Submitting(w: World, lane: Lane)
    requires IsHash(w.k.sha256)
  {
    && Standing(w, lane) && lane.fed.Some? && IsValidPin(lane.fed.value) && lane.submit.Some?
    && var s, p := lane.inviterSlot.inviter.value.server, lane.joinerSlot.joiner.value.peer;
       && Ready(w.k, s, p, NoobFromPin(lane.minted.value), NoobFromPin(lane.fed.value))
       && SubmitStage(w.k, lane.submit.value, s, p)
  }

  /** The NoobId of a PIN. */
  function PinNoobId(k: Primitives, pin: string): Bytes
    requires IsHash(k.sha256)
  {
    NoobIdOf(k, Quoted(k, NoobFromPin(pin)))
  }

  /** The PIN that was fed has the NoobId of the PIN that was minted. */
  ghost predicate PinsMatch(k: Primitives, lane: Lane)
    requires IsHash(k.sha256)
  {
    && lane.minted.Some? && lane.fed.Some? && IsValidPin(lane.minted.value) && IsValidPin(lane.fed.value)
    && PinNoobId(k, lane.minted.value) == PinNoobId(k, lane.fed.value)
  }

  /** What registering and pinning imply. */
  ghost predicate PinFacts(w: World, lane: Lane)
    requires IsHash(w.k.sha256)
  {
    && (NobodyRegistered(lane) || PinsMatch(w.k, lane))
    && (lane.inviterPinned.Some? ==>
          && PinsMatch(w.k, lane)
          && ParsePairingInfo(w.k, w.joinerInfo) ==
               Ok(PeerIdentity(lane.inviterPinned.value.peer, lane.inviterPinned.value.peerCertDer)))
    && (lane.joinerPinned.Some? ==>
          && lane.inviterPinned.Some?
          && ParsePairingInfo(w.k, w.inviterInfo) ==
               Ok(PeerIdentity(lane.joinerPinned.value.peer, lane.joinerPinned.value.peerCertDer))
          && (lane.minted == lane.fed ==> lane.joinerPinned.value.kz == lane.inviterPinned.value.kz))
  }

  /** The joiner gave up with its session past Waiting: it cannot start again. */
  ghost predicate Stuck(w: World, lane: Lane)
    requires IsHash(w.k.sha256)
  {
    && lane.started && lane.invite.None? && lane.submit.None?
    && lane.joinerSlot.joiner.Some? && lane.joinerSlot.joiner.value.peer.state != Waiting
    && lane.joinerPinned.None? && PinFacts(w, lane)
  }

  /** The joiner has no session any more. */
  ghost predicate Ended(w: World, lane: Lane)
    requires IsHash(w.k.sha256)
  {
    && lane.started && lane.invite.None? && lane.joinerSlot.joiner.None?
    && (lane.submit.Some? ==> lane.submit.value.Notice? && IsSignal(lane.submit.value.phase))
    && PinFacts(w, lane)
  }

  ghost predicate LaneInv(w: World, lane: Lane)
    requires IsHash(w.k.sha256)
  {
    lane == NEW_LANE || Inviting(w, lane) || Dead(lane) || Invited(w, lane) || Submitting(w, lane)
    || Stuck(w, lane) || Ended(w, lane)
  }

  // ---- create_invite keeps the invariant ----

  /** The first post: an unclustered joiner opens a session, and the server's offer comes next. */
  lemma FirstPost(w: World, lane: Lane, m: Move)
    requires WorldOk(w) && MoveOk(m) && m.action.PostInvite? && m.action.delivery.Delivered?
    requires lane.invite.Some? && Starting(w, lane.invite.value, lane.joinerSlot)
    ensures var next := InviteMove(w, lane, m);
      && next == lane.(joinerSlot := next.joinerSlot, invite := next.invite)
      && if m.clustered then next.invite.None? && next.joinerSlot == EMPTY_SLOT
         else next.invite.Some? && Offering(w, next.invite.value, next.joinerSlot)
  {
    hide TextLaws, KeyLaws, InfoLaws, PeerReceive, ServerReceive, ParsePairingInfo, PeerDiscovery;
    hide ServerDiscovery, Offered;
    var k := w.k;
    var msg := ServerOffers(k, w.inviterInfo, w.joinerInfo, m.atInviter);
    PeerDispatch(k, NewPeer(w.joinerInfo), START, m.atJoiner);
    ServerDispatch(k, NewServer(w.inviterInfo), PeerDiscovery(k, NewPeer(w.joinerInfo)), m.atInviter);
  }

  /** The second post: the peer chooses, the server accepts and sends its key. */
  lemma SecondPost(w: World, lane: Lane, m: Move)
    requires WorldOk(w) && MoveOk(m) && m.action.PostInvite? && m.action.delivery.Delivered?
    requires lane.invite.Some? && Offering(w, lane.invite.value, lane.joinerSlot)
    ensures var next := InviteMove(w, lane, m);
      && next == lane.(joinerSlot := next.joinerSlot, invite := next.invite)
      && next.invite.Some? && Keying(w, next.invite.value, next.joinerSlot)
  {
    hide TextLaws, KeyLaws, InfoLaws, PeerReceive, ServerReceive, ParsePairingInfo, PeerNegotiation, ServerNegotiation;
    var k, s, msg := w.k, lane.invite.value.i.server, lane.invite.value.msg;
    PeerChooses(k, s, msg, w.inviterInfo, w.joinerInfo);
    PeerDispatch(k, NewPeer(w.joinerInfo), msg, m.atJoiner);
    var key := ServerKeys(k, s, msg, w.inviterInfo, w.joinerInfo, m.atInviter);
    ServerDispatch(k, s, Choice(k, s.m.peerId, w.joinerInfo), m.atInviter);
  }

  /** The joiner answers the key with its own and captures the inviter, unless it refuses the inviter's PairingInfo. */
  lemma JoinerWaits(w: World, lane: Lane, m: Move, key: Wire)
    requires WorldOk(w) && lane.invite.Some? && Keying(w, lane.invite.value, lane.joinerSlot)
    requires var step := PeerKeyExchange(w.k, lane.joinerSlot.joiner.value.peer, lane.invite.value.msg, m.atJoiner);
      step.r == Sending(key) && step.p.state == Waiting && step.p.m.inp.serverInfo == w.inviterInfo
    ensures var p := PeerKeyExchange(w.k, lane.joinerSlot.joiner.value.peer, lane.invite.value.msg, m.atJoiner).p;
      var step := JoinerHandles(w, lane, lane.invite.value.msg, m);
      match ParsePairingInfo(w.k, w.inviterInfo)
      case Ok(id) =>
        step.slot == Slot(Some(JoinerState(p, Some(id))), None, Some(PendingOf(w.id, id.info)))
        && step.reply == Some(Reply(200, WithMsg(w.id, INITIAL, Message(key))))
      case Err(e) => step.reply == Some(Reply(400, SignalEnvelope(w.id, INITIAL, e))) && step.slot == EMPTY_SLOT
  {
    hide TextLaws, KeyLaws, InfoLaws, PeerReceive, ParsePairingInfo, PeerKeyExchange;
    PeerDispatch(w.k, lane.joinerSlot.joiner.value.peer, lane.invite.value.msg, m.atJoiner);
  }

  /** The inviter reaches Waiting on the joiner's key and files the session with the minted PIN. */
  lemma InviterFiles(w: World, lane: Lane, i: InviterState, key: Wire, pin: string, f: Fresh)
    requires WorldOk(w) && lane.invite.Some? && Ordinary(key) && key.type_ == Some(3)
    requires var step := ServerKeyExchange(w.k, i.server, key);
      step.r == DoneFailure() && step.s.state == Waiting && step.s.dirp == 2
    ensures var s := ServerKeyExchange(w.k, i.server, key).s;
      InviteResult(w, lane, i, Some(Reply(200, WithMsg(w.id, INITIAL, Message(key)))), pin, f) ==
        lane.(invite := None, minted := Some(pin),
              inviterSlot := lane.inviterSlot.(
                inviter := Some(InviterState(s.(m := SetNoob(w.k, s.m, NoobFromPin(pin))), i.joiner))))
  {
    hide TextLaws, KeyLaws, InfoLaws, ServerReceive, ServerKeyExchange;
    ServerDispatch(w.k, i.server, key, f);
  }

  /** The third post: both reach Waiting, unless the joiner refuses the inviter's PairingInfo. */
  lemma ThirdPost(w: World, lane: Lane, m: Move)
    requires WorldOk(w) && MoveOk(m) && m.action.PostInvite? && m.action.delivery.Delivered?
    requires Inviting(w, lane) && Keying(w, lane.invite.value, lane.joinerSlot)
    ensures var next := InviteMove(w, lane, m);
      && next.last == lane.last && next.refused == lane.refused
      && if ParsePairingInfo(w.k, w.inviterInfo).Ok? then Invited(w, next) && next.minted == Some(m.action.pin)
         else Dead(next)
  {
    hide TextLaws, KeyLaws, InfoLaws, ParsePairingInfo, PeerKeyExchange, ServerKeyExchange, HandleSlot;
    hide InviteIter, NoobFromPin;
    var k, i, p, msg := w.k, lane.invite.value.i, lane.joinerSlot.joiner.value.peer, lane.invite.value.msg;
    var secret := i.server.m.keypair.value.secret;
    var key := PeerKeys(k, i.server, p, msg, w.inviterInfo, w.joinerInfo, secret, m.atJoiner);
    ServerWaits(k, i.server, p, msg, w.inviterInfo, w.joinerInfo, secret, m.atJoiner);
    JoinerWaits(w, lane, m, key);
    if ParsePairingInfo(w.k, w.inviterInfo).Ok? {
      var handled := lane.(joinerSlot := JoinerHandles(w, lane, msg, m).slot);
      InviterFiles(w, handled, i, key, m.action.pin, m.atInviter);
      hide Linked, HasNoob;
    }
  }

  /** Whatever is lost, the driver goes on, stops for good, or leaves an invite that stands. */
  lemma InviteKeeps(w: World, lane: Lane, m: Move)
    requires WorldOk(w) && MoveOk(m) && m.action.PostInvite? && Inviting(w, lane)
    ensures var next := InviteMove(w, lane, m); Inviting(w, next) || Dead(next) || Invited(w, next)
  {
    hide Starting, Offering, Keying, Invited, InviteMove, Lawful;
    if !m.action.delivery.Delivered? {
      InviteCutShort(w, lane, m);
    } else if Starting(w, lane.invite.value, lane.joinerSlot) {
      FirstPost(w, lane, m);
    } else if Offering(w, lane.invite.value, lane.joinerSlot) {
      SecondPost(w, lane, m);
    } else {
      ThirdPost(w, lane, m);
    }
  }

  /** Only a `success` registers a peer, and no message of the Initial Exchange is one. */
  lemma HandledNotDone(w: World, lane: Lane, msg: Wire, m: Move)
    requires WorldOk(w) && msg.eap.None?
    requires lane.joinerSlot.joiner.Some? ==> !PeerDone(lane.joinerSlot.joiner.value.peer)
    ensures var slot := JoinerHandles(w, lane, msg, m).slot; slot.joiner.Some? ==> !PeerDone(slot.joiner.value.peer)
  {
    hide TextLaws, KeyLaws, InfoLaws, PeerReceive, ParsePairingInfo, PeerKept, PeerPanics;
    var j := if lane.joinerSlot.joiner.Some? then lane.joinerSlot.joiner.value else NewJoiner(w.joinerInfo);
    PeerStepSafe(w.k, j.peer, Message(msg), m.atJoiner);
  }

  lemma InvitingNotDone(w: World, lane: Lane)
    requires Inviting(w, lane)
    ensures lane.joinerSlot.joiner.Some? ==> !PeerDone(lane.joinerSlot.joiner.value.peer)
    ensures lane.invite.value.msg.eap.None?
  {
  }

  lemma InviteCutShort(w: World, lane: Lane, m: Move)
    requires WorldOk(w) && m.action.PostInvite? && Inviting(w, lane) && !m.action.delivery.Delivered?
    ensures Dead(InviteMove(w, lane, m))
  {
    hide TextLaws, KeyLaws, InfoLaws, HandleSlot, InviteStage;
    InvitingNotDone(w, lane);
    HandledNotDone(w, lane, lane.invite.value.msg, m);
  }

  // ---- the sessions pass on what their machines do ----

  function CompletionReply(w: World, msg: Wire): Option<Reply> {
    Some(Reply(200, WithMsg(w.id, COMPLETION, Message(msg))))
  }

  /** A reaction that is not a success travels back as it is and pins nothing. */
  lemma InviterPassesOn(w: World, lane: Lane, msg: Wire, m: Move, s': ServerState, r: Reaction)
    requires WorldOk(w) && lane.inviterSlot.inviter.Some?
    requires ServerReceive(w.k, lane.inviterSlot.inviter.value.server, Message(msg), m.atInviter) == ServerStep(s', r)
    requires s'.state != Registered && r.Reacted? && !r.outcome.success && r.outcome.send.Some?
    ensures InviterHandles(w, lane, Carry(msg), m) ==
              SlotStep(lane.inviterSlot.(inviter := Some(lane.inviterSlot.inviter.value.(server := s'))),
                       CompletionReply(w, r.outcome.send.value), None)
  {
    hide Lawful, ServerReceive, ParsePairingInfo;
  }

  /** The session that `submit_pin` goes on with after the peer's answer. */
  lemma JoinerGoesOn(w: World, lane: Lane, s: Submit, msg: Wire, f: Fresh, p': PeerState, send: Wire)
    requires WorldOk(w) && lane.joinerSlot.joiner.Some? && !s.Notice?
    requires PeerReceive(w.k, lane.joinerSlot.joiner.value.peer, Message(msg), f) == PeerStep(p', Sending(send))
    ensures SubmitResult(w, lane, s, CompletionReply(w, msg), f) ==
              lane.(submit := Some(Carry(send)),
                    joinerSlot := lane.joinerSlot.(joiner := Some(lane.joinerSlot.joiner.value.(peer := p'))))
  {
    hide Lawful, PeerReceive;
  }

  /** A final outcome that is no success ends the session on the joiner, with its code and a FAIL to send. */
  lemma JoinerRefuses(w: World, lane: Lane, s: Submit, msg: Wire, f: Fresh, p': PeerState, o: Outcome)
    requires WorldOk(w) && lane.joinerSlot.joiner.Some? && !s.Notice?
    requires PeerReceive(w.k, lane.joinerSlot.joiner.value.peer, Message(msg), f) == PeerStep(p', Reacted(o))
    requires o.done && !o.success && o.errorCode.Some? && IsWrongPinCode(o.errorCode.value)
    ensures SubmitResult(w, lane, s, CompletionReply(w, msg), f) ==
              lane.(submit := Some(Notice(FAIL, INCORRECT_PIN)), refused := Some((true, o.errorCode)),
                    last := Some(lane.joinerSlot.joiner.value.(peer := p')),
                    joinerSlot := lane.joinerSlot.(joiner := None, pending := None))
  {
    hide Lawful, PeerReceive;
  }

  // ---- submit_pin keeps the invariant, message by message ----

  /** After any move of the inviter that pins nothing, giving up leaves the joiner stuck. */
  lemma StuckWithoutPin(w: World, lane: Lane, slot: Slot)
    requires HashLaws(w.k) && Submitting(w, lane)
    requires slot.inviter.Some? ==> !ServerDone(slot.inviter.value.server)
    ensures Stuck(w, lane.(inviterSlot := slot, submit := None)) && Stuck(w, lane.(submit := None))
  {
    hide NoobFromPin, ParsePairingInfo;
  }

  /** The inviter's machine has not registered, and nothing was pinned. */
  predicate HandledUnregistered(step: SlotStep) {
    step.pinned.None? && (step.slot.inviter.Some? ==> !ServerDone(step.slot.inviter.value.server))
  }

  predicate Posting(m: Move) {
    m.action.PostSubmit? && m.action.delivery.Delivered?
  }

  /** Kickoff: the inviter starts the conversation, the peer shows its state. */
  lemma KickoffPost(w: World, lane: Lane, m: Move)
    requires WorldOk(w) && Submitting(w, lane) && lane.submit == Some(Kickoff) && m.action.PostSubmit?
    ensures InviterHandles(w, lane, Kickoff, m) == SlotStep(lane.inviterSlot, CompletionReply(w, START), None)
    ensures Posting(m) ==>
              SubmitMove(w, lane, m) ==
                lane.(submit := Some(Carry(PeerDiscovery(w.k, lane.joinerSlot.joiner.value.peer))))
  {
    hide TextLaws, KeyLaws, InfoLaws, PeerReceive, ParsePairingInfo, PeerDiscovery, Ready;
    var p := lane.joinerSlot.joiner.value.peer;
    PeerDispatch(w.k, p, START, m.atJoiner);
    JoinerGoesOn(w, lane, Kickoff, START, m.atJoiner, p, PeerDiscovery(w.k, p));
  }

  /** Type 1: the server asks for the NoobId, and the peer gives it. */
  lemma DiscoveryPost(w: World, lane: Lane, m: Move)
    requires WorldOk(w) && Submitting(w, lane) && m.action.PostSubmit?
    requires lane.submit == Some(Carry(PeerDiscovery(w.k, lane.joinerSlot.joiner.value.peer)))
    ensures HandledUnregistered(InviterHandles(w, lane, lane.submit.value, m))
    ensures Posting(m) ==>
              var next := SubmitMove(w, lane, m);
              && Submitting(w, next) && next.submit == Some(Carry(NoobIdWire(w.k, lane.joinerSlot.joiner.value.peer.m)))
              && next == lane.(submit := next.submit, inviterSlot := next.inviterSlot)
  {
    hide TextLaws, KeyLaws, InfoLaws, PeerReceive, ServerReceive, ParsePairingInfo, ServerDiscovery, HandleSlot;
    hide SubmitResult, Ready, HasNoob;
    var k, i, p := w.k, lane.inviterSlot.inviter.value, lane.joinerSlot.joiner.value.peer;
    var minted, fed := NoobFromPin(lane.minted.value), NoobFromPin(lane.fed.value);
    CompletionBegins(k, i.server, p, minted, fed, m.atInviter);
    ServerDispatch(k, i.server, PeerDiscovery(k, p), m.atInviter);
    var s' := ServerDiscovery(k, i.server, PeerDiscovery(k, p), m.atInviter).s;
    ReadyStates(k, s', p, minted, fed);
    InviterPassesOn(w, lane, PeerDiscovery(k, p), m, s', Sending(NoobIdRequest(k, i.server.m)));
    if Posting(m) {
      var handled := lane.(inviterSlot := lane.inviterSlot.(inviter := Some(i.(server := s'))));
      PeerSendsNoobId(k, s', p, minted, fed);
      PeerDispatch(k, p, NoobIdRequest(k, i.server.m), m.atJoiner);
      JoinerGoesOn(w, handled, lane.submit.value, NoobIdRequest(k, i.server.m), m.atJoiner, p, NoobIdWire(k, p.m));
    }
  }

  lemma ReadyStates(k: Primitives, s: ServerState, p: PeerState, minted: Bytes, fed: Bytes)
    requires HashLaws(k) && Ready(k, s, p, minted, fed)
    ensures s.state == Waiting && p.state == OobReceived
  {
  }

  predicate SameNoobIds(lane: Lane)
    requires lane.inviterSlot.inviter.Some? && lane.joinerSlot.joiner.Some?
  {
    lane.inviterSlot.inviter.value.server.m.noobId == lane.joinerSlot.joiner.value.peer.m.noobId
  }

  /** Type 5 with the NoobId of another Noob: the server refuses it with code 2003, and the joiner tears down. */
  lemma WrongNoobIdPost(w: World, lane: Lane, m: Move)
    requires WorldOk(w) && Submitting(w, lane) && m.action.PostSubmit?
    requires lane.submit == Some(Carry(NoobIdWire(w.k, lane.joinerSlot.joiner.value.peer.m))) && !SameNoobIds(lane)
    ensures HandledUnregistered(InviterHandles(w, lane, lane.submit.value, m))
    ensures Posting(m) ==>
              var next := SubmitMove(w, lane, m);
              && Ended(w, next) && NothingPinned(next) && next.submit == Some(Notice(FAIL, INCORRECT_PIN))
              && next.refused == Some((true, Some(UNRECOGNIZED_OOB_MSG_ID)))
              && next.inviterSlot == lane.inviterSlot
              && next.joinerSlot == lane.joinerSlot.(joiner := None, pending := None)
              && next.last == Some(lane.joinerSlot.joiner.value)
  {
    hide TextLaws, KeyLaws, InfoLaws, PeerReceive, ServerReceive, ParsePairingInfo, ServerNoobId, HandleSlot;
    hide SubmitResult, HasNoob, PeerErrorMsg;
    var k, i, p := w.k, lane.inviterSlot.inviter.value, lane.joinerSlot.joiner.value.peer;
    var minted, fed := NoobFromPin(lane.minted.value), NoobFromPin(lane.fed.value);
    ServerChecksNoobId(k, i.server, p, minted, fed);
    ServerDispatch(k, i.server, NoobIdWire(k, p.m), m.atInviter);
    var refusal := FailCode(UNRECOGNIZED_OOB_MSG_ID, "unrecognized NoobId");
    InviterPassesOn(w, lane, NoobIdWire(k, p.m), m, i.server, refusal);
    if Posting(m) {
      var error := ErrorWire(UNRECOGNIZED_OOB_MSG_ID, "unrecognized NoobId");
      PeerHearsError(k, p, UNRECOGNIZED_OOB_MSG_ID, "unrecognized NoobId", m.atJoiner);
      JoinerRefuses(w, lane, lane.submit.value, error, m.atJoiner, p,
                    PeerReceive(k, p, Message(error), m.atJoiner).r.outcome);
    }
  }

  /** Type 5 with the server's own NoobId: the server sends its MACs. */
  lemma RightNoobIdHandled(w: World, lane: Lane, m: Move)
    requires WorldOk(w) && Submitting(w, lane)
    requires lane.submit == Some(Carry(NoobIdWire(w.k, lane.joinerSlot.joiner.value.peer.m))) && SameNoobIds(lane)
    ensures var i := lane.inviterSlot.inviter.value;
      var s := i.server.(m := i.server.m.(keym := Some(DerivedOf(w.k, i.server.m))));
      InviterHandles(w, lane, lane.submit.value, m) ==
        SlotStep(lane.inviterSlot.(inviter := Some(i.(server := s))),
                 CompletionReply(w, MacsWire(w.k, i.server.m)), None)
  {
    hide TextLaws, KeyLaws, InfoLaws, ServerReceive, ParsePairingInfo, ServerNoobId, HandleSlot, HasNoob;
    hide CompletionKeys;
    var k, i, p := w.k, lane.inviterSlot.inviter.value, lane.joinerSlot.joiner.value.peer;
    ServerChecksNoobId(k, i.server, p, NoobFromPin(lane.minted.value), NoobFromPin(lane.fed.value));
    ServerDispatch(k, i.server, NoobIdWire(k, p.m), m.atInviter);
    InviterPassesOn(w, lane, NoobIdWire(k, p.m), m, i.server.(m := i.server.m.(keym := Some(DerivedOf(k, i.server.m)))),
                    Sending(MacsWire(k, i.server.m)));
  }

  /** The peer answers those MACs with its own, or refuses them, which it does not if the PINs are one. */
  lemma RightNoobIdPost(w: World, lane: Lane, m: Move)
    requires WorldOk(w) && Submitting(w, lane) && Posting(m)
    requires lane.submit == Some(Carry(NoobIdWire(w.k, lane.joinerSlot.joiner.value.peer.m))) && SameNoobIds(lane)
    ensures var next := SubmitMove(w, lane, m);
      || (Ended(w, next) && NothingPinned(next) && lane.minted != lane.fed)
      || (&& Submitting(w, next)
          && next == lane.(submit := next.submit, inviterSlot := next.inviterSlot, joinerSlot := next.joinerSlot)
          && next.submit == Some(Carry(MacpWire(w.k, next.joinerSlot.joiner.value.peer.m)))
          && next.joinerSlot.joiner.value.peer.m.keym == Some(DerivedOf(w.k, next.joinerSlot.joiner.value.peer.m))
          && next.inviterSlot.inviter.value.server.m.keym ==
              Some(DerivedOf(w.k, next.inviterSlot.inviter.value.server.m)))
  {
    hide TextLaws, KeyLaws, InfoLaws, PeerReceive, ParsePairingInfo, PeerCompletion, HandleSlot, SubmitResult;
    hide CompletionKeys, Mac;
    var k, i, p := w.k, lane.inviterSlot.inviter.value, lane.joinerSlot.joiner.value.peer;
    var minted, fed := NoobFromPin(lane.minted.value), NoobFromPin(lane.fed.value);
    var p', macs := p.(m := p.m.(keym := Some(DerivedOf(k, p.m)))), MacsWire(k, i.server.m);
    RightNoobIdHandled(w, lane, m);
    var handled := lane.(inviterSlot := InviterHandles(w, lane, lane.submit.value, m).slot);
    PeerChecksMacs(k, i.server, p, minted, fed);
    PeerDispatch(k, p, macs, m.atJoiner);
    var r := PeerCompletion(k, p, macs).r;
    if r == Sending(MacpWire(k, p.m)) {
      JoinerGoesOn(w, handled, lane.submit.value, macs, m.atJoiner, p', MacpWire(k, p.m));
    } else {
      JoinerRefuses(w, handled, lane.submit.value, macs, m.atJoiner, p', r.outcome);
    }
  }
}
