/** The sessions a node keeps: what every one of them satisfies after any requests, malformed ones included. */
module StoredSessions {
  import opened Octets
  import opened Kdf
  import opened Negotiation
  import opened Primitives
  import opened Protocol
  import opened Pin
  import opened Info
  import opened Session
  import opened Node
  import opened Exchange
  import opened Invariants

  // ---- inviters ----

  /** An inviter's session is ready for the Completion Exchange, or through it. */
  ghost predicate Stored(k: Primitives, i: InviterState)
    requires IsHash(k.sha256)
  {
    var s := i.server;
    && HasNoob(k, s.m, s.m.noob) && s.m.suite.Some? && s.m.keypair.Some?
    && (s.dirp == 2 || s.dirp == 3) && s.dirs == 2
    && (s.state == Waiting || s.state == Registered) && ServerInv(k, s)
    && IdentityBound(k, i.joiner)
  }

  /** A session that `create_invite` is driving has no PIN yet. */
  ghost predicate Driven(k: Primitives, i: InviterState)
    requires IsHash(k.sha256)
  {
    ServerInv(k, i.server) && i.server.dirs == 2 && i.joiner.None?
  }

  /** At Waiting the PIN is always taken, so `create_invite` never fails there. */
  lemma PinAlwaysTaken(k: Primitives, i: InviterState, pin: string)
    requires IsHash(k.sha256) && Driven(k, i) && i.server.state == Waiting
    ensures InviterSetPin(k, i, pin).Ok? && Stored(k, InviterSetPin(k, i, pin).value)
  {
    hide NoobFromPin;
  }

  lemma DrivenKept(k: Primitives, i: InviterState, resp: Envelope, f: Fresh)
    requires HashLaws(k) && Driven(k, i)
    ensures match InviteIter(k, i, resp, f)
            case InviteContinue(i', _) => Driven(k, i')
            case InviteReady(i') => Driven(k, i') && i'.server.state == Waiting
            case InviteFailed(_) => true
  {
    hide ServerReceive, ServerInv;
    ServerStepSafe(k, i.server, resp.msg, f);
  }

  /** Whatever the joiner answers, a session that gets filed is ready, and filing it did not fail for want of a PIN. */
  lemma {:induction false} FiledIsStored(k: Primitives, i: InviterState, pin: string, posts: seq<Post>)
    requires HashLaws(k) && Driven(k, i)
    ensures match DriveInvite(k, i, pin, posts)
            case Ok(filed) => Stored(k, filed)
            case Err(_) => true
    decreases |posts|
  {
    hide InviteIter, InviterSetPin, Posted, Stored, Driven;
    if |posts| > 0 && PostResult(posts[0]).Ok? {
      var resp := PostResult(posts[0]).value;
      DrivenKept(k, i, resp, posts[0].random);
      match InviteIter(k, i, resp, posts[0].random) {
        case InviteContinue(i', _) => FiledIsStored(k, i', pin, posts[1..]);
        case InviteReady(i') => PinAlwaysTaken(k, i', pin);
        case _ =>
      }
    }
  }

  /** Nothing that arrives can spoil a stored session. */
  lemma StoredKept(k: Primitives, i: InviterState, blob: Blob, f: Fresh)
    requires HashLaws(k) && Stored(k, i)
    ensures Stored(k, InviterOnCompletion(k, i, blob, f).i)
  {
    hide ServerReceive, ParsePairingInfo;
    ServerStepSafe(k, i.server, blob, f);
  }

  const NO_OOB := "no OOB processed"

  predicate LacksNoOob(r: Reaction) {
    r.Reacted? ==> r.outcome.error != Some(NO_OOB)
  }

  lemma ErrorsNameOtherThings(k: Primitives, s: ServerState, w: Wire, f: Fresh)
    requires IsHash(k.sha256) && s.m.noob != []
    ensures LacksNoOob(ServerNegotiation(k, s, w, f).r) && LacksNoOob(ServerKeyExchange(k, s, w).r)
    ensures LacksNoOob(ServerNoobId(k, s, w).r) && LacksNoOob(ServerCompletion(k, s, w).r)
    ensures LacksNoOob(Fail("state mismatch"))
  {
    hide ParseInt, ParseStr, ParseKey, ParseBytes, PeerIdOk, Mac, CompletionKeys, SuiteFromId, DirAccepted, Quoted;
  }

  lemma DiscoveryNamesOtherThings(k: Primitives, s: ServerState, w: Wire, f: Fresh)
    requires IsHash(k.sha256) && s.m.noob != []
    ensures LacksNoOob(ServerDiscovery(k, s, w, f).r)
  {
    hide ParseStr, Mac, CompletionKeys, Quoted, ShowInts;
  }

  lemma PeerErrorsNameOtherThings(w: Wire)
    requires w.errorCode.Some?
    ensures LacksNoOob(PeerError(w))
  {
    assert PeerErrorMsg(w.errorCode.value, w.errorInfo)[0] == 'p' != NO_OOB[0];
  }

  /** A stored session never answers that it has no OOB. */
  lemma StoredNeverLacksOob(k: Primitives, i: InviterState, blob: Blob, f: Fresh)
    requires HashLaws(k) && Stored(k, i)
    ensures LacksNoOob(ServerReceive(k, i.server, blob, f).r)
  {
    hide ServerDiscovery, ServerNegotiation, ServerKeyExchange, ServerNoobId, ServerCompletion, PeerErrorMsg;
    hide ServerInv, Quoted;
    if blob.Message? {
      ErrorsNameOtherThings(k, i.server, blob.wire, f);
      DiscoveryNamesOtherThings(k, i.server, blob.wire, f);
      if blob.wire.errorCode.Some? {
        PeerErrorsNameOtherThings(blob.wire);
      }
    }
  }

  /** A Type 6 for this session, with no keys derived yet. */
  predicate EarlyMacp(k: Primitives, i: InviterState, blob: Blob) {
    && blob.Message? && blob.wire.errorCode.None? && blob.wire.type_ == Some(6)
    && PeerIdOk(k, i.server, blob.wire) && i.server.m.keym.None?
  }

  /** It panics exactly on an early Type 6, which then changes nothing. */
  lemma StoredPanicsExactly(k: Primitives, i: InviterState, blob: Blob, f: Fresh)
    requires HashLaws(k) && Stored(k, i)
    ensures InviterOnCompletion(k, i, blob, f).answer.Panicked? <==> EarlyMacp(k, i, blob)
    ensures EarlyMacp(k, i, blob) ==> InviterOnCompletion(k, i, blob, f).i == i
  {
    ServerStepSafe(k, i.server, blob, f);
    hide ServerReceive, ServerKept, ParsePairingInfo, PeerIdOk, ServerOutcomeOk;
  }

  // ---- everything that can happen under one id ----

  /**
   * A request arrives; `create_invite` files a session; the user enters a PIN; the joiner's driver gets an
   * answer to its post.
   */
  datatype Event =
    | Request(arrival: Arrival)
    | File(pin: string, posts: seq<Post>)
    | Enter(pin: string)
    | Iterate(resp: Envelope, random: Fresh)

  datatype Effect = Effect(slot: Slot, pinned: Option<Paired>)

  function Happens(k: Primitives, info: string, slot: Slot, e: Event): Effect
    requires IsHash(k.sha256)
  {
    match e
    case Request(a) =>
      var step := HandleSlot(k, info, slot, a.clustered, a.env, a.random);
      Effect(step.slot, step.pinned)
    case File(pin, posts) =>
      (match DriveInvite(k, NewInviter(info), pin, posts)
       case Ok(i) => Effect(slot.(inviter := Some(i)), None)
       case Err(_) => Effect(slot, None))
    case Enter(pin) =>
      (match SubmitBegin(k, slot, pin)
       case Ok(j) => Effect(slot.(joiner := Some(j)), None)
       case Err(_) => Effect(slot, None))
    case Iterate(resp, f) =>
      if slot.joiner.None? then Effect(slot, None)
      else
        (match SubmitIter(k, slot.joiner.value, resp, f)
         case SubmitContinue(j, _) => Effect(slot.(joiner := Some(j)), None)
         case SubmitPaired(_, paired) => Effect(slot.(joiner := None, pending := None), Some(paired))
         case SubmitRefused(_, _, _) => Effect(slot.(joiner := None, pending := None), None)
         case SubmitStuck(j) => Effect(slot.(joiner := Some(j)), None))
  }

  function SlotAfterEvents(k: Primitives, info: string, events: seq<Event>): Slot
    requires IsHash(k.sha256)
  {
    if |events| == 0 then EMPTY_SLOT
    else Happens(k, info, SlotAfterEvents(k, info, events[..|events| - 1]), events[|events| - 1]).slot
  }

  ghost predicate JoinerOk(k: Primitives, j: JoinerState)
    requires IsHash(k.sha256)
  {
    PeerInv(k, j.peer) && IdentityBound(k, j.inviter)
  }

  /** Both kinds of session are sound. */
  ghost predicate SlotOk(k: Primitives, slot: Slot)
    requires IsHash(k.sha256)
  {
    && (slot.inviter.Some? ==> Stored(k, slot.inviter.value))
    && (slot.joiner.Some? ==> JoinerOk(k, slot.joiner.value))
  }

  /** A pairing names the node its certificate certifies, with an admission. */
  predicate PairingBound(k: Primitives, p: Option<Paired>) {
    p.Some? ==> Bound(k, p.value.peer, p.value.peerCertDer)
  }

  lemma JoinerInitialKept(k: Primitives, j: JoinerState, blob: Blob, f: Fresh)
    requires HashLaws(k) && JoinerOk(k, j)
    ensures JoinerOk(k, JoinerOnInitial(k, j, blob, f).j)
  {
    hide PeerReceive, ParsePairingInfo, PeerInv, Bound, PeerAnswered;
    PeerStepSafe(k, j.peer, blob, f);
  }

  lemma JoinerCompletionKept(k: Primitives, j: JoinerState, resp: Envelope, f: Fresh)
    requires HashLaws(k) && JoinerOk(k, j)
    ensures var end := SubmitIter(k, j, resp, f);
      && JoinerOk(k, end.j) && (end.SubmitPaired? ==> PairingBound(k, Some(end.paired)))
  {
    hide PeerReceive, PeerInv, Bound, PeerAnswered;
    PeerStepSafe(k, j.peer, resp.msg, f);
  }

  lemma InitialKept(k: Primitives, info: string, slot: Slot, clustered: bool, env: Envelope, f: Fresh)
    requires HashLaws(k) && SlotOk(k, slot)
    ensures SlotOk(k, InitialRequest(k, info, slot, clustered, env, f).slot)
    ensures InitialRequest(k, info, slot, clustered, env, f).pinned.None?
  {
    hide JoinerOnInitial, Stored, PeerInv, Bound;
    assert PeerInv(k, NewPeer(info)) by { NewPeerInv(k, info); }
    JoinerInitialKept(k, if slot.joiner.Some? then slot.joiner.value else NewJoiner(info), env.msg, f);
  }

  lemma NewPeerInv(k: Primitives, info: string)
    requires IsHash(k.sha256)
    ensures PeerInv(k, NewPeer(info))
  {
  }

  /** An inviter pins only on a message whose MACp verifies, and then the identity it captured and the key it holds. */
  lemma CompletionKept(k: Primitives, slot: Slot, env: Envelope, f: Fresh)
    requires HashLaws(k) && SlotOk(k, slot)
    ensures var step := CompletionRequest(k, slot, env, f);
      && SlotOk(k, step.slot)
      && (step.pinned.Some? ==>
            && slot.inviter.Some? && MacpVerifies(k, slot.inviter.value.server, env.msg)
            && step.pinned.value.kz == slot.inviter.value.server.m.keym.value.kz
            && PairingBound(k, step.pinned))
  {
    hide ServerReceive, JoinerOk, Bound, MacpVerifies, ServerPanics, ParsePairingInfo;
    if slot.inviter.Some? {
      StoredKept(k, slot.inviter.value, env.msg, f);
      ServerStepSafe(k, slot.inviter.value.server, env.msg, f);
      hide Stored, ServerKept;
    }
  }

  lemma EnterKept(k: Primitives, slot: Slot, pin: string)
    requires IsHash(k.sha256) && SlotOk(k, slot)
    ensures SubmitBegin(k, slot, pin).Ok? ==> JoinerOk(k, SubmitBegin(k, slot, pin).value)
  {
    hide Stored, NoobFromPin, Bound;
  }

  /** Each event keeps both sessions sound and pins only what a certificate certifies. */
  lemma EventKeeps(k: Primitives, info: string, slot: Slot, e: Event)
    requires HashLaws(k) && SlotOk(k, slot)
    ensures var effect := Happens(k, info, slot, e); SlotOk(k, effect.slot) && PairingBound(k, effect.pinned)
  {
    hide InitialRequest, CompletionRequest, DriveInvite, SubmitBegin, SubmitIter, Stored, JoinerOk;
    hide PairingBound, MacpVerifies;
    assert PairingBound(k, None) by { NothingIsBound(k); }
    match e {
      case Request(a) =>
        InitialKept(k, info, slot, a.clustered, a.env, a.random);
        CompletionKept(k, slot, a.env, a.random);
      case File(pin, posts) =>
        FiledIsStored(k, NewInviter(info), pin, posts);
      case Enter(pin) =>
        EnterKept(k, slot, pin);
      case Iterate(resp, f) =>
        if slot.joiner.Some? {
          JoinerCompletionKept(k, slot.joiner.value, resp, f);
        }
    }
  }

  lemma NothingIsBound(k: Primitives)
    ensures PairingBound(k, None)
  {
  }

  /**
   * After any events a stored inviter has its 16-octet Noob with the NoobId and MAC input computed from it, a
   * suite, a key pair, an accepted direction and a state past the Initial Exchange.
   */
  lemma {:induction false} SessionsStaySound(k: Primitives, info: string, events: seq<Event>)
    requires HashLaws(k)
    ensures SlotOk(k, SlotAfterEvents(k, info, events))
  {
    if |events| > 0 {
      hide Happens, SlotOk;
      var last := |events| - 1;
      SessionsStaySound(k, info, events[..last]);
      EventKeeps(k, info, SlotAfterEvents(k, info, events[..last]), events[last]);
    }
  }

  /** And every pairing that is pinned on the way is bound to its certificate. */
  lemma EveryPairingBound(k: Primitives, info: string, events: seq<Event>, i: nat)
    requires HashLaws(k) && i < |events|
    ensures PairingBound(k, Happens(k, info, SlotAfterEvents(k, info, events[..i]), events[i]).pinned)
  {
    hide Happens, SlotOk, PairingBound, SlotAfterEvents;
    SessionsStaySound(k, info, events[..i]);
    EventKeeps(k, info, SlotAfterEvents(k, info, events[..i]), events[i]);
  }

  /** The same for the requests that a node serves: what `ServeAll` leaves under an id is sound if it was so before. */
  lemma {:induction false} RequestsKeepSlot(k: Primitives, info: string, slot: Slot, id: string, arrivals: seq<Arrival>)
    requires HashLaws(k) && SlotOk(k, slot)
    ensures SlotOk(k, SlotAfter(k, info, slot, id, arrivals))
  {
    hide HandleSlot, SlotOk;
    if |arrivals| > 0 {
      var last := |arrivals| - 1;
      RequestsKeepSlot(k, info, slot, id, arrivals[..last]);
      EventKeeps(k, info, SlotAfter(k, info, slot, id, arrivals[..last]), Request(arrivals[last]));
    }
  }
}
