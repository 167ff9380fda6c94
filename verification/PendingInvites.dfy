/**
 * The list of pending invites and the joiner's sessions (crates/pair-cluster/src/node.rs): exactly which events
 * leave a pending invite without its session.
 */
module PendingInvites {
  import opened Octets
  import opened Decimal
  import opened Negotiation
  import opened Kdf
  import opened Primitives
  import opened Protocol
  import opened Info
  import opened Session
  import opened Node
  import opened Invariants
  import opened StoredSessions
  import opened Lanes
  import opened LaneSafety
  import opened LaneOutcomes

  // ---- which messages a peer answers with an error ----

  predicate OfferFails(k: Primitives, p: PeerState, w: Wire) {
    || ParseStr(k, w.peerId).None?
    || (forall v :: v in ParseInts(k, w.vers) ==> v !in p.versions)
    || (forall i :: 0 <= i < |ParseInts(k, w.cryptosuites)| ==>
          !Usable(ParseInts(k, w.cryptosuites)[i], p.cryptosuites))
    || !(1 <= OrElse(ParseInt(k, w.dirs), -1) <= 3)
  }

  /** A key or nonce that does not parse, or a key that the chosen suite cannot be used with. */
  predicate KeyFails(k: Primitives, p: PeerState, w: Wire, f: Fresh) {
    || ParseKey(k, w.pks).None? || ParseBytes(k, w.ns).None?
    || (p.m.suite.Some? && k.sharedSecret(KeyPair(p.m.suite.value, f.secret), ParseKey(k, w.pks).value).None?)
  }

  predicate MacsFails(k: Primitives, p: PeerState, w: Wire)
    requires IsHash(k.sha256)
  {
    || p.m.noob == [] || OrElse(ParseBytes(k, w.noobId), []) != p.m.noobId
    || OrElse(ParseBytes(k, w.macs), []) != Mac(k, DerivedOf(k, p.m).kms, 2, p.m.inp)
  }

  /** The guards of the peer that fail, by the type of the message. */
  predicate PeerFails(k: Primitives, p: PeerState, blob: Blob, f: Fresh)
    requires IsHash(k.sha256)
  {
    match blob
    case Empty => true
    case Garbage(_) => true
    case Message(w) =>
      && w.eap.None?
      && (w.errorCode.Some?
          || (w.type_ == Some(2) && OfferFails(k, p, w))
          || (w.type_ == Some(3) && KeyFails(k, p, w, f))
          || (w.type_ == Some(5) && p.m.noob == [])
          || (w.type_ == Some(6) && MacsFails(k, p, w))
          || w.type_.None? || !(1 <= w.type_.value <= 6))
  }

  lemma OfferFailsExactly(k: Primitives, p: PeerState, w: Wire)
    ensures var r := PeerNegotiation(k, p, w).r; r.Reacted? && (r.outcome.error.Some? <==> OfferFails(k, p, w))
  {
    RefusalMeansNothingCommon(ParseInts(k, w.vers), ParseInts(k, w.cryptosuites), p.versions, p.cryptosuites);
    hide ParseStr, ParseInts, ParseInt, MaxCommon, FirstSupported, Usable, SuiteFromId;
  }

  lemma KeyFailsExactly(k: Primitives, p: PeerState, w: Wire, f: Fresh)
    ensures var r := PeerKeyExchange(k, p, w, f).r; r.Reacted? && r.outcome.error.Some? <==> KeyFails(k, p, w, f)
  {
    hide ParseStr, ParseKey, ParseBytes;
  }

  lemma MacsFailsExactly(k: Primitives, p: PeerState, w: Wire)
    requires IsHash(k.sha256)
    ensures var r := PeerCompletion(k, p, w).r; r.Reacted? && (r.outcome.error.Some? <==> MacsFails(k, p, w))
  {
    hide ParseBytes, Mac, CompletionKeys;
  }

  /** A peer answers with an error exactly when its guards fail. */
  lemma PeerFailsExactly(k: Primitives, p: PeerState, blob: Blob, f: Fresh)
    requires IsHash(k.sha256)
    ensures var r := PeerReceive(k, p, blob, f).r; r.Reacted? && r.outcome.error.Some? <==> PeerFails(k, p, blob, f)
  {
    hide PeerNegotiation, PeerKeyExchange, PeerCompletion, OfferFails, KeyFails, MacsFails, PeerDiscovery;
    if blob.Message? {
      OfferFailsExactly(k, p, blob.wire);
      KeyFailsExactly(k, p, blob.wire, f);
      MacsFailsExactly(k, p, blob.wire);
    }
  }

  // ---- which messages evict a session ----

  /** The machine is at Waiting after a message that it takes. */
  predicate WaitsAfter(p: PeerState, w: Wire) {
    if w.eap.Some? then w.eap.value != "success" && p.state == Waiting else w.type_ == Some(3) || p.state == Waiting
  }

  /** The ServerInfo that it then holds. */
  function InfoAfter(p: PeerState, w: Wire): string {
    if w.eap.None? && w.type_ == Some(2) then EnsureObj(Get(w.serverInfo)) else p.m.inp.serverInfo
  }

  /** A session that has not captured its inviter waits with a ServerInfo that is absent or unsound. */
  predicate CaptureFails(k: Primitives, j: JoinerState, w: Wire) {
    && j.inviter.None? && WaitsAfter(j.peer, w)
    && (InfoAfter(j.peer, w) == "" || ParsePairingInfo(k, InfoAfter(j.peer, w)).Err?)
  }

  /** The message makes the session report an error: a guard of the peer fails, or the capture does. */
  predicate JoinerFails(k: Primitives, j: JoinerState, blob: Blob, f: Fresh)
    requires IsHash(k.sha256)
  {
    || PeerFails(k, j.peer, blob, f)
    || (blob.Message? && !PeerPanics(k, j.peer, blob) && CaptureFails(k, j, blob.wire))
  }

  lemma TakenOffer(k: Primitives, p: PeerState, w: Wire)
    requires !OfferFails(k, p, w)
    ensures var p' := PeerNegotiation(k, p, w).p;
      p'.state == p.state && p'.m.inp.serverInfo == EnsureObj(Get(w.serverInfo))
  {
    OfferFailsExactly(k, p, w);
    hide OfferFails, ParseStr, ParseInts, ParseInt, MaxCommon, FirstSupported, ChooseDir, SuiteFromId, ShowInt;
  }

  lemma TakenKey(k: Primitives, p: PeerState, w: Wire, f: Fresh)
    requires !KeyFails(k, p, w, f) && p.m.suite.Some?
    ensures var p' := PeerKeyExchange(k, p, w, f).p; p'.state == Waiting && p'.m.inp.serverInfo == p.m.inp.serverInfo
  {
    hide ParseKey, ParseBytes;
  }

  lemma MacsKeepState(k: Primitives, p: PeerState, w: Wire)
    requires IsHash(k.sha256)
    ensures var p' := PeerCompletion(k, p, w).p; p'.state == p.state && p'.m.inp == p.m.inp
  {
    hide ParseBytes, Mac, CompletionKeys;
  }

  /** What a taken message leaves of the machine. */
  lemma TakenMessage(k: Primitives, p: PeerState, w: Wire, f: Fresh)
    requires IsHash(k.sha256) && !PeerFails(k, p, Message(w), f) && !PeerPanics(k, p, Message(w))
    ensures var step := PeerReceive(k, p, Message(w), f);
      && step.r.Reacted? && (step.p.state == Waiting <==> WaitsAfter(p, w))
      && step.p.m.inp.serverInfo == InfoAfter(p, w)
  {
    hide PeerNegotiation, PeerKeyExchange, PeerCompletion, OfferFails, MacsFails, PeerDiscovery, ParseKey, ParseBytes;
    if w.type_ == Some(2) && w.eap.None? {
      OfferFailsExactly(k, p, w);
      TakenOffer(k, p, w);
    } else if w.type_ == Some(3) && w.eap.None? {
      TakenKey(k, p, w, f);
      KeyReacts(k, p, w, f);
    } else {
      MacsKeepState(k, p, w);
      MacsFailsExactly(k, p, w);
    }
  }

  lemma KeyReacts(k: Primitives, p: PeerState, w: Wire, f: Fresh)
    requires p.m.suite.Some?
    ensures PeerKeyExchange(k, p, w, f).r.Reacted?
  {
    hide ParseKey, ParseBytes;
  }

  /** A session reports an error exactly on a failing message. */
  lemma JoinerFailsExactly(k: Primitives, j: JoinerState, blob: Blob, f: Fresh)
    requires HashLaws(k)
    ensures var a := JoinerOnInitial(k, j, blob, f).answer; a.Returned? && a.value.Err? <==> JoinerFails(k, j, blob, f)
  {
    PeerFailsExactly(k, j.peer, blob, f);
    PeerStepSafe(k, j.peer, blob, f);
    if blob.Message? && !PeerFails(k, j.peer, blob, f) && !PeerPanics(k, j.peer, blob) {
      TakenMessage(k, j.peer, blob.wire, f);
    }
    hide PeerReceive, PeerFails, PeerPanics, PeerKept, PeerOutcomeOk, WaitsAfter, InfoAfter, ParsePairingInfo;
  }

  // ---- pending invites without a session ----

  predicate Orphaned(slot: Slot) {
    slot.pending.Some? && slot.joiner.None?
  }

  /** A request of the Initial Exchange whose message the stored session fails on. */
  predicate Evicts(k: Primitives, slot: Slot, e: Event)
    requires IsHash(k.sha256) && slot.joiner.Some?
  {
    && e.Request? && e.arrival.env.inviteId != "" && e.arrival.env.phase == INITIAL
    && JoinerFails(k, slot.joiner.value, e.arrival.env.msg, e.arrival.random)
  }

  lemma RequestOrphans(k: Primitives, info: string, slot: Slot, a: Arrival)
    requires HashLaws(k) && slot.joiner.Some? && slot.pending.Some?
    ensures Orphaned(HandleSlot(k, info, slot, a.clustered, a.env, a.random).slot) <==> Evicts(k, slot, Request(a))
  {
    JoinerFailsExactly(k, slot.joiner.value, a.env.msg, a.random);
    hide JoinerOnInitial, InviterOnCompletion, JoinerFails;
  }

  /**
   * Whatever happens under an id that has a pending invite and its session, the invite is left without the
   * session exactly by a request of the Initial Exchange on whose message the session fails.
   */
  lemma OrphanedExactly(k: Primitives, info: string, slot: Slot, e: Event)
    requires HashLaws(k) && slot.joiner.Some? && slot.pending.Some?
    ensures Orphaned(Happens(k, info, slot, e).slot) <==> Evicts(k, slot, e)
  {
    hide HandleSlot, JoinerFails, DriveInvite, SubmitBegin, SubmitIter;
    if e.Request? {
      RequestOrphans(k, info, slot, e.arrival);
    }
  }

  /** Before an invite is pending, nothing makes it pending without a session. */
  lemma PendingBringsSession(k: Primitives, info: string, slot: Slot, e: Event)
    requires IsHash(k.sha256) && slot.pending.None?
    ensures !Orphaned(Happens(k, info, slot, e).slot)
  {
    hide JoinerOnInitial, InviterOnCompletion, DriveInvite, SubmitBegin, SubmitIter;
  }

  /** In any run, an invite that is pending without a session was left so by an earlier evicting request. */
  lemma {:induction false} OrphanOrigin(k: Primitives, info: string, events: seq<Event>) returns (i: nat)
    requires HashLaws(k) && Orphaned(SlotAfterEvents(k, info, events))
    ensures i < |events|
    ensures var before := SlotAfterEvents(k, info, events[..i]);
      before.pending.Some? && before.joiner.Some? && Evicts(k, before, events[i])
  {
    hide Happens, Evicts;
    assert SlotAfterEvents(k, info, []) == EMPTY_SLOT;
    assert |events| == 0 ==> events == [];
    var last := |events| - 1;
    var before := SlotAfterEvents(k, info, events[..last]);
    if Orphaned(before) {
      i := OrphanOrigin(k, info, events[..last]);
      assert events[..last][..i] == events[..i];
    } else {
      i := last;
      if before.pending.None? {
        PendingBringsSession(k, info, before, events[last]);
      } else {
        OrphanedExactly(k, info, before, events[last]);
      }
    }
  }

  // ---- that it happens ----

  /** The request that a delivered post of `create_invite` brings. */
  function PostedRequest(w: World, lane: Lane, m: Move): Event
    requires lane.invite.Some?
  {
    Request(Arrival(WithMsg(w.id, INITIAL, Message(lane.invite.value.msg)), m.atJoiner, m.clustered))
  }

  lemma PostIsEvent(w: World, lane: Lane, m: Move)
    requires IsHash(w.k.sha256) && m.action.PostInvite? && m.action.delivery.Delivered? && lane.invite.Some?
    ensures InviteMove(w, lane, m).joinerSlot ==
              Happens(w.k, w.joinerInfo, lane.joinerSlot, PostedRequest(w, lane, m)).slot
  {
    hide HandleSlot, InviteIter, InviterSetPin, Posted;
  }

  lemma OneMoreEvent(k: Primitives, info: string, events: seq<Event>, e: Event)
    requires IsHash(k.sha256)
    ensures SlotAfterEvents(k, info, events + [e]) == Happens(k, info, SlotAfterEvents(k, info, events), e).slot
  {
    hide Happens;
    assert (events + [e])[..|events|] == events;
  }

  /** The three requests of a delivered invite lead to a waiting session with its pending entry. */
  lemma InviteArrives(w: World, moves: seq<Move>, pin: string, entered: string, posts: nat) returns (events: seq<Event>)
    requires WorldOk(w) && Follows(moves, Script(pin, entered, posts)) && ParsePairingInfo(w.k, w.inviterInfo).Ok?
    ensures var slot := SlotAfterEvents(w.k, w.joinerInfo, events);
      slot.pending.Some? && slot.joiner.Some? && slot.joiner.value.peer.state == Waiting
  {
    hide TextLaws, KeyLaws, InfoLaws, ParsePairingInfo, InviteMove, At, Happens, SlotAfterEvents, Invited;
    hide Offering, Keying, PostedRequest;
    var first, second, third := At(w, moves, 1), At(w, moves, 2), At(w, moves, 3);
    InvitePosts(w, moves, pin, entered, posts);
    PostIsEvent(w, first, moves[1]);
    PostIsEvent(w, second, moves[2]);
    PostIsEvent(w, third, moves[3]);
    var a, b := PostedRequest(w, first, moves[1]), PostedRequest(w, second, moves[2]);
    var c := PostedRequest(w, third, moves[3]);
    OneMoreEvent(w.k, w.joinerInfo, [], a);
    OneMoreEvent(w.k, w.joinerInfo, [a], b);
    OneMoreEvent(w.k, w.joinerInfo, [a, b], c);
    NoEvents(w.k, w.joinerInfo);
    assert [] + [a] == [a] && [a] + [b] == [a, b] && [a, b] + [c] == [a, b, c];
    InvitedWaits(w, At(w, moves, 4));
    events := [a, b, c];
  }

  lemma NoEvents(k: Primitives, info: string)
    requires IsHash(k.sha256)
    ensures SlotAfterEvents(k, info, []) == EMPTY_SLOT
  {
  }

  lemma InvitedWaits(w: World, lane: Lane)
    requires IsHash(w.k.sha256) && Invited(w, lane)
    ensures lane.joinerSlot.pending.Some? && lane.joinerSlot.joiner.Some?
    ensures lane.joinerSlot.joiner.value.peer.state == Waiting
  {
  }

  /** Bytes that are no message then evict the session and leave the invite pending. */
  lemma OrphanReached(w: World, moves: seq<Move>, pin: string, entered: string, posts: nat, f: Fresh)
    returns (events: seq<Event>, garbage: Event)
    requires WorldOk(w) && Follows(moves, Script(pin, entered, posts)) && ParsePairingInfo(w.k, w.inviterInfo).Ok?
    ensures garbage == Request(Arrival(WithMsg(w.id, INITIAL, Garbage(None)), f, false))
    ensures SlotAfterEvents(w.k, w.joinerInfo, events).joiner.Some?
    ensures Orphaned(SlotAfterEvents(w.k, w.joinerInfo, events + [garbage]))
  {
    hide TextLaws, KeyLaws, InfoLaws, ParsePairingInfo, Happens, SlotAfterEvents, Follows;
    events := InviteArrives(w, moves, pin, entered, posts);
    garbage := Request(Arrival(WithMsg(w.id, INITIAL, Garbage(None)), f, false));
    OneMoreEvent(w.k, w.joinerInfo, events, garbage);
    OrphanedExactly(w.k, w.joinerInfo, SlotAfterEvents(w.k, w.joinerInfo, events), garbage);
  }

  // ---- a session that `create_invite` filed, and an early Type 6 ----

  /** The delivered invite as `create_invite` sees it: the loop over the three replies returns the session filed. */
  lemma InviteIsDriven(w: World, moves: seq<Move>, pin: string, entered: string, posts: nat)
    returns (replies: seq<Post>)
    requires WorldOk(w) && Follows(moves, Script(pin, entered, posts)) && ParsePairingInfo(w.k, w.inviterInfo).Ok?
    ensures |replies| == 3 && At(w, moves, 4).inviterSlot.inviter.Some?
    ensures DriveInvite(w.k, NewInviter(w.inviterInfo), pin, replies) == Ok(At(w, moves, 4).inviterSlot.inviter.value)
    ensures At(w, moves, 4).inviterSlot.inviter.value.server.m.keym.None?
  {
    hide TextLaws, KeyLaws, InfoLaws, ParsePairingInfo, InviteMove, At, DriveInvite, InvitePost, Invited;
    hide Offering, Keying;
    var first, second, third := At(w, moves, 1), At(w, moves, 2), At(w, moves, 3);
    InvitePosts(w, moves, pin, entered, posts);
    var a, b, c := InvitePost(w, first, moves[1]), InvitePost(w, second, moves[2]), InvitePost(w, third, moves[3]);
    InviteMoveIsIteration(w, first, moves[1], [b, c]);
    InviteMoveIsIteration(w, second, moves[2], [c]);
    InviteMoveIsIteration(w, third, moves[3], []);
    assert [a] + [b, c] == [a, b, c] && [b] + [c] == [b, c] && [c] + [] == [c];
    InvitedHasNoKeys(w, At(w, moves, 4));
    replies := [a, b, c];
  }

  lemma InvitedHasNoKeys(w: World, lane: Lane)
    requires IsHash(w.k.sha256) && Invited(w, lane)
    ensures lane.invite.None? && lane.inviterSlot.inviter.Some? && lane.inviterSlot.inviter.value.server.m.keym.None?
  {
  }

  /** A Type 6 for the session that `create_invite` has just filed makes its handler panic. */
  lemma FiledCanPanic(w: World, moves: seq<Move>, pin: string, entered: string, posts: nat, f: Fresh)
    returns (replies: seq<Post>, i: InviterState, early: Wire)
    requires WorldOk(w) && Follows(moves, Script(pin, entered, posts)) && ParsePairingInfo(w.k, w.inviterInfo).Ok?
    ensures DriveInvite(w.k, NewInviter(w.inviterInfo), pin, replies) == Ok(i) && Stored(w.k, i)
    ensures early.type_ == Some(6) && InviterOnCompletion(w.k, i, Message(early), f).answer.Panicked?
    ensures HandleSlot(w.k, w.inviterInfo, Slot(None, Some(i), None), false,
                       WithMsg(w.id, COMPLETION, Message(early)), f)
              == SlotStep(Slot(None, Some(i), None), None, None)
  {
    hide KeyLaws, InfoLaws, ParsePairingInfo, At, DriveInvite, Stored;
    replies := InviteIsDriven(w, moves, pin, entered, posts);
    i := At(w, moves, 4).inviterSlot.inviter.value;
    FiledIsStored(w.k, NewInviter(w.inviterInfo), pin, replies);
    early := NO_WIRE.(type_ := Some(6), peerId := Some(w.k.quote(i.server.m.peerId)));
    assert w.k.parseString(w.k.quote(i.server.m.peerId)) == Some(i.server.m.peerId);
    hide TextLaws, InviterOnCompletion;
    StoredPanicsExactly(w.k, i, Message(early), f);
  }
}
