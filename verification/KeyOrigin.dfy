/**
 * Which Noob the keys of a stored inviter come from, and which identity it pins: over all events, and with
 * the runs in which they are not the PIN's and not the one under the MAC.
 */
module KeyOrigin {
  import opened Octets
  import opened Decimal
  import opened Negotiation
  import opened Kdf
  import opened Primitives
  import opened Protocol
  import opened Pin
  import opened Info
  import opened Session
  import opened Node
  import opened Exchange
  import opened Invariants
  import opened StoredSessions

  // ---- which message makes keys ----

  /** A Type 5 that the server takes and that carries the NoobId it holds, which is sixteen zeros before any Noob. */
  predicate NamesNoobId(k: Primitives, s: ServerState, blob: Blob) {
    && blob.Message? && blob.wire.errorCode.None? && blob.wire.type_ == Some(5) && PeerIdOk(k, s, blob.wire)
    && OrElse(ParseBytes(k, blob.wire.noobId), []) == s.m.noobId
  }

  /** A server answers with MACs, and makes keys from the Noob it has or from none, exactly on such a message. */
  lemma KeysMadeExactly(k: Primitives, s: ServerState, blob: Blob, f: Fresh)
    requires IsHash(k.sha256) && ServerInv(k, s)
    ensures var step := ServerReceive(k, s, blob, f);
      && (NamesNoobId(k, s, blob) <==>
            step.r.Reacted? && step.r.outcome.send.Some? && step.r.outcome.send.value.macs.Some?)
      && step.s.m.keym == (if NamesNoobId(k, s, blob) then Some(DerivedOf(k, s.m)) else s.m.keym)
      && step.s.m.noob == s.m.noob
    ensures s.m.noob == [] ==> s.m.noobId == ZEROS_16
  {
    hide ServerNegotiation, ServerKeyExchange, ServerDiscovery, ServerNoobId, ServerCompletion, CompletionKeys;
    hide NoobIdOf, PeerErrorMsg;
    if blob.Message? {
      DiscoveryKeepsKeys(k, s, blob.wire, f);
      NegotiationKeepsKeys(k, s, blob.wire, f);
      KeyExchangeKeepsKeys(k, s, blob.wire);
      NoobIdMakesKeys(k, s, blob.wire);
      CompletionKeepsKeys(k, s, blob.wire);
    }
  }

  /** The step leaves the keys, and sends no MACs. */
  predicate NoKeysMade(s: ServerState, step: ServerStep) {
    && step.s.m.keym == s.m.keym && step.s.m.noob == s.m.noob
    && (step.r.Reacted? && step.r.outcome.send.Some? ==> step.r.outcome.send.value.macs.None?)
  }

  lemma DiscoveryKeepsKeys(k: Primitives, s: ServerState, w: Wire, f: Fresh)
    requires IsHash(k.sha256) && s.state in {Unregistered, Waiting, Registered}
    ensures NoKeysMade(s, ServerDiscovery(k, s, w, f))
  {
    hide ParseStr, Mac, CompletionKeys, ShowInts;
  }

  lemma NoobIdMakesKeys(k: Primitives, s: ServerState, w: Wire)
    requires IsHash(k.sha256)
    ensures var step := ServerNoobId(k, s, w);
      if PeerIdOk(k, s, w) && OrElse(ParseBytes(k, w.noobId), []) == s.m.noobId then
        step.s == s.(m := s.m.(keym := Some(DerivedOf(k, s.m)))) && step.r.Reacted? && step.r.outcome.send.Some?
        && step.r.outcome.send.value.macs.Some?
      else NoKeysMade(s, step)
  {
    hide ParseBytes, PeerIdOk, Mac, CompletionKeys;
  }

  lemma CompletionKeepsKeys(k: Primitives, s: ServerState, w: Wire)
    ensures NoKeysMade(s, ServerCompletion(k, s, w))
  {
    hide ParseBytes, PeerIdOk, Mac;
  }

  lemma NegotiationKeepsKeys(k: Primitives, s: ServerState, w: Wire, f: Fresh)
    ensures NoKeysMade(s, ServerNegotiation(k, s, w, f))
  {
    hide ParseInt, ParseStr, PeerIdOk, VersionAccepted, SuiteAccepted, DirAccepted;
  }

  lemma KeyExchangeKeepsKeys(k: Primitives, s: ServerState, w: Wire)
    ensures NoKeysMade(s, ServerKeyExchange(k, s, w))
  {
    hide ParseKey, ParseBytes, ParseStr, PeerIdOk;
  }

  // ---- the origin of the keys, by what happened ----

  /** No keys, or those derived from these values. */
  datatype Origin = NoKeys | From(z: Bytes, np: Bytes, ns: Bytes, noob: Bytes)

  function OriginOf(m: Method): Origin {
    From(m.z, m.np, m.ns, m.noob)
  }

  function KeysFrom(k: Primitives, o: Origin): Option<DerivedKeys>
    requires IsHash(k.sha256)
  {
    match o case NoKeys => None case From(z, np, ns, noob) => Some(CompletionKeys(k.sha256, z, np, ns, noob))
  }

  /** One message given to a server whose keys had this origin. */
  function OriginStep(k: Primitives, s: ServerState, blob: Blob, o: Origin): Origin {
    if NamesNoobId(k, s, blob) then OriginOf(s.m) else o
  }

  /** One of the replies that `create_invite` handles names the NoobId, which is still sixteen zeros. */
  predicate NamedEarly(k: Primitives, i: InviterState, posts: seq<Post>)
    requires IsHash(k.sha256)
    decreases |posts|
  {
    && |posts| > 0 && PostResult(posts[0]).Ok? && !PostResult(posts[0]).value.rejected
    && var msg := PostResult(posts[0]).value.msg;
       || NamesNoobId(k, i.server, msg)
       || var next := InviteIter(k, i, PostResult(posts[0]).value, posts[0].random);
          next.InviteContinue? && NamedEarly(k, next.i, posts[1..])
  }

  /** The origin that these replies leave. */
  function OriginAfterPosts(k: Primitives, i: InviterState, posts: seq<Post>, o: Origin): Origin
    requires IsHash(k.sha256)
    decreases |posts|
  {
    if |posts| == 0 || PostResult(posts[0]).Err? then o
    else
      var resp := PostResult(posts[0]).value;
      var next := OriginStep(k, i.server, resp.msg, o);
      match InviteIter(k, i, resp, posts[0].random)
      case InviteContinue(i', _) => OriginAfterPosts(k, i', posts[1..], next)
      case InviteReady(_) => next
      case InviteFailed(_) => o
  }

  /** The origin after any events under one id. */
  function OriginAfter(k: Primitives, info: string, events: seq<Event>): Origin
    requires IsHash(k.sha256)
  {
    if |events| == 0 then NoKeys
    else
      var n := |events| - 1;
      var before := SlotAfterEvents(k, info, events[..n]);
      if Happens(k, info, before, events[n]).slot.inviter.None? then NoKeys
      else OriginEvent(k, info, before, events[n], OriginAfter(k, info, events[..n]))
  }

  function OriginEvent(k: Primitives, info: string, before: Slot, e: Event, o: Origin): Origin
    requires IsHash(k.sha256)
  {
    match e
    case File(pin, posts) =>
      var i := NewInviter(info);
      if DriveInvite(k, i, pin, posts).Ok? then OriginAfterPosts(k, i, posts, NoKeys) else o
    case Request(a) =>
      if a.env.inviteId != "" && a.env.phase == COMPLETION && before.inviter.Some? then
        OriginStep(k, before.inviter.value.server, a.env.msg, o)
      else o
    case _ => o
  }

  /** A completion request has named the NoobId of the session since it was filed. */
  predicate NamedSince(k: Primitives, info: string, events: seq<Event>)
    requires IsHash(k.sha256)
  {
    && |events| > 0
    && var n := |events| - 1;
      var before := SlotAfterEvents(k, info, events[..n]);
      && Happens(k, info, before, events[n]).slot.inviter.Some?
      && (NamingRequest(k, before, events[n]) || (!Files(k, info, events[n]) && NamedSince(k, info, events[..n])))
  }

  predicate NamingRequest(k: Primitives, before: Slot, e: Event) {
    && e.Request? && e.arrival.env.inviteId != "" && e.arrival.env.phase == COMPLETION && before.inviter.Some?
    && NamesNoobId(k, before.inviter.value.server, e.arrival.env.msg)
  }

  predicate Files(k: Primitives, info: string, e: Event)
    requires IsHash(k.sha256)
  {
    e.File? && DriveInvite(k, NewInviter(info), e.pin, e.posts).Ok?
  }

  // ---- the keys are those of the origin ----

  ghost predicate KeysAre(k: Primitives, i: InviterState, o: Origin)
    requires IsHash(k.sha256)
  {
    i.server.m.keym == KeysFrom(k, o)
  }

  /** One more reply of an invite without a PIN. */
  lemma ReplyKeys(k: Primitives, i: InviterState, resp: Envelope, f: Fresh, o: Origin)
    requires HashLaws(k) && Driven(k, i) && i.server.m.noob == [] && KeysAre(k, i, o) && (o.From? ==> o.noob == [])
    ensures var next := OriginStep(k, i.server, resp.msg, o);
      && (next.From? ==> next.noob == []) && (next.From? <==> o.From? || NamesNoobId(k, i.server, resp.msg))
      && match InviteIter(k, i, resp, f)
         case InviteContinue(i', _) => Driven(k, i') && KeysAre(k, i', next) && i'.server.m.noob == []
         case InviteReady(i') =>
           Driven(k, i') && KeysAre(k, i', next) && i'.server.m.noob == [] && i'.server.state == Waiting
         case InviteFailed(_) => true
  {
    DrivenKept(k, i, resp, f);
    hide ServerInv, ServerReceive, CompletionKeys, NamesNoobId;
    assert ServerInv(k, i.server);
    KeysMadeExactly(k, i.server, resp.msg, f);
  }

  /**
   * The session that `create_invite` files holds keys exactly if a reply named the NoobId early, and then keys
   * that were derived from no Noob at all.
   */
  lemma {:induction false} FiledKeysExactly(k: Primitives, i: InviterState, pin: string, posts: seq<Post>, o: Origin)
    requires HashLaws(k) && Driven(k, i) && i.server.m.noob == [] && KeysAre(k, i, o) && (o.From? ==> o.noob == [])
    requires DriveInvite(k, i, pin, posts).Ok?
    ensures var filed, end := DriveInvite(k, i, pin, posts).value, OriginAfterPosts(k, i, posts, o);
      && KeysAre(k, filed, end) && (end.From? ==> end.noob == [])
      && (filed.server.m.keym.Some? <==> o.From? || NamedEarly(k, i, posts))
    decreases |posts|
  {
    hide InviteIter, InviterSetPin, Posted, Driven, NamesNoobId, KeysAre, OriginStep;
    var resp, f := PostResult(posts[0]).value, posts[0].random;
    ReplyKeys(k, i, resp, f, o);
    RejectedFails(k, i, resp, f);
    var next := OriginStep(k, i.server, resp.msg, o);
    match InviteIter(k, i, resp, f) {
      case InviteContinue(i', _) =>
        FiledKeysExactly(k, i', pin, posts[1..], next);
      case InviteReady(i') =>
        PinKeepsKeys(k, i', pin, next);
    }
  }

  lemma RejectedFails(k: Primitives, i: InviterState, resp: Envelope, f: Fresh)
    requires IsHash(k.sha256)
    ensures resp.rejected ==> InviteIter(k, i, resp, f).InviteFailed?
  {
  }

  lemma PinKeepsKeys(k: Primitives, i: InviterState, pin: string, o: Origin)
    requires IsHash(k.sha256) && InviterSetPin(k, i, pin).Ok? && KeysAre(k, i, o)
    ensures KeysAre(k, InviterSetPin(k, i, pin).value, o)
    ensures InviterSetPin(k, i, pin).value.server.m.keym.Some? <==> o.From?
  {
    hide NoobFromPin, CompletionKeys;
  }

  lemma NewHasNoKeys(k: Primitives, info: string)
    requires IsHash(k.sha256)
    ensures Driven(k, NewInviter(info)) && KeysAre(k, NewInviter(info), NoKeys) && NewInviter(info).server.m.noob == []
  {
  }

  /** The stored inviter holds the keys of this origin, which is its own Noob or none. */
  ghost predicate OriginOk(k: Primitives, slot: Slot, o: Origin)
    requires IsHash(k.sha256)
  {
    && (slot.inviter.None? ==> o == NoKeys)
    && (slot.inviter.Some? ==>
          && KeysAre(k, slot.inviter.value, o)
          && (o.From? ==> o.noob == [] || o.noob == slot.inviter.value.server.m.noob))
  }

  lemma CompletionOrigin(k: Primitives, slot: Slot, env: Envelope, f: Fresh, o: Origin)
    requires HashLaws(k) && SlotOk(k, slot) && OriginOk(k, slot, o) && slot.inviter.Some?
    ensures OriginOk(k, CompletionRequest(k, slot, env, f).slot, OriginStep(k, slot.inviter.value.server, env.msg, o))
  {
    assert ServerInv(k, slot.inviter.value.server);
    KeysMadeExactly(k, slot.inviter.value.server, env.msg, f);
    hide ServerReceive, JoinerOk, Stored, NamesNoobId, ParsePairingInfo, CompletionKeys, HashLaws;
  }

  lemma EventOrigin(k: Primitives, info: string, slot: Slot, e: Event, o: Origin)
    requires HashLaws(k) && SlotOk(k, slot) && OriginOk(k, slot, o)
    ensures var slot' := Happens(k, info, slot, e).slot;
      OriginOk(k, slot', if slot'.inviter.None? then NoKeys else OriginEvent(k, info, slot, e, o))
  {
    hide InitialRequest, CompletionRequest, DriveInvite, SubmitBegin, SubmitIter, SlotOk, KeysAre, OriginStep;
    hide OriginAfterPosts;
    match e {
      case Request(a) =>
        InitialKeepsInviter(k, info, slot, a.clustered, a.env, a.random);
        if slot.inviter.Some? {
          CompletionOrigin(k, slot, a.env, a.random, o);
        } else {
          NoInviter(k, slot, a.env, a.random);
        }
      case File(pin, posts) =>
        NewHasNoKeys(k, info);
        if DriveInvite(k, NewInviter(info), pin, posts).Ok? {
          FiledKeysExactly(k, NewInviter(info), pin, posts, NoKeys);
        }
      case _ =>
    }
  }

  lemma InitialKeepsInviter(k: Primitives, info: string, slot: Slot, clustered: bool, env: Envelope, f: Fresh)
    requires IsHash(k.sha256)
    ensures InitialRequest(k, info, slot, clustered, env, f).slot.inviter == slot.inviter
  {
    hide JoinerOnInitial;
  }

  lemma NoInviter(k: Primitives, slot: Slot, env: Envelope, f: Fresh)
    requires IsHash(k.sha256) && slot.inviter.None?
    ensures CompletionRequest(k, slot, env, f).slot.inviter.None?
  {
    hide InviterOnCompletion;
  }

  /** After any events, the keys a stored inviter holds are those of the last message that named its NoobId. */
  lemma {:induction false} KeysByOrigin(k: Primitives, info: string, events: seq<Event>)
    requires HashLaws(k)
    ensures OriginOk(k, SlotAfterEvents(k, info, events), OriginAfter(k, info, events))
  {
    if |events| > 0 {
      hide Happens, SlotOk, OriginOk, OriginEvent;
      var last := |events| - 1;
      KeysByOrigin(k, info, events[..last]);
      SessionsStaySound(k, info, events[..last]);
      EventOrigin(k, info, SlotAfterEvents(k, info, events[..last]), events[last],
                  OriginAfter(k, info, events[..last]));
    } else {
      NothingHappened(k, info, events);
    }
  }

  /** They are the PIN's exactly when a completion request has named it since the session was filed. */
  lemma {:induction false} PinKeysExactly(k: Primitives, info: string, events: seq<Event>)
    requires HashLaws(k)
    ensures var o := OriginAfter(k, info, events); o.From? && o.noob != [] <==> NamedSince(k, info, events)
  {
    if |events| > 0 {
      hide Happens, SlotOk, OriginOk, OriginEvent, NamingRequest, Files;
      var last := |events| - 1;
      var before := SlotAfterEvents(k, info, events[..last]);
      PinKeysExactly(k, info, events[..last]);
      SessionsStaySound(k, info, events[..last]);
      EventNames(k, info, before, events[last], OriginAfter(k, info, events[..last]));
    }
  }

  lemma EventNames(k: Primitives, info: string, slot: Slot, e: Event, o: Origin)
    requires HashLaws(k) && SlotOk(k, slot)
    ensures var next := OriginEvent(k, info, slot, e, o);
      next.From? && next.noob != [] <==> NamingRequest(k, slot, e) || (!Files(k, info, e) && o.From? && o.noob != [])
  {
    hide DriveInvite, NamesNoobId, ServerInv, JoinerOk, NoobIdOf, OriginAfterPosts;
    if Files(k, info, e) {
      NewHasNoKeys(k, info);
      FiledKeysExactly(k, NewInviter(info), e.pin, e.posts, NoKeys);
    }
  }

  lemma NothingHappened(k: Primitives, info: string, events: seq<Event>)
    requires IsHash(k.sha256) && events == []
    ensures OriginOk(k, SlotAfterEvents(k, info, events), OriginAfter(k, info, events))
  {
  }

  /**
   * A pairing that is pinned after any events has the key of that origin, and it is the PIN's exactly when a
   * message has named the NoobId since the PIN was set; the MACp that was accepted had the PIN's Noob among
   * its inputs either way.
   */
  lemma PinnedKeyOrigin(k: Primitives, info: string, events: seq<Event>, env: Envelope, f: Fresh)
    requires HashLaws(k)
    requires CompletionRequest(k, SlotAfterEvents(k, info, events), env, f).pinned.Some?
    ensures var slot, o := SlotAfterEvents(k, info, events), OriginAfter(k, info, events);
      && slot.inviter.Some? && o.From?
      && var s, keys := slot.inviter.value.server, KeysFrom(k, o).value;
         && CompletionRequest(k, slot, env, f).pinned.value.kz == keys.kz
         && env.msg.Message? && ParseBytes(k, env.msg.wire.macp) == Some(Mac(k, keys.kmp, 1, s.m.inp))
         && s.m.inp.noob == Quoted(k, s.m.noob) && |s.m.noob| == 16
         && o.noob == if NamedSince(k, info, events) then s.m.noob else []
  {
    hide SlotAfterEvents, OriginAfter, CompletionRequest, CompletionKeys, ServerInv, JoinerOk;
    KeysByOrigin(k, info, events);
    PinKeysExactly(k, info, events);
    SessionsStaySound(k, info, events);
    CompletionKept(k, SlotAfterEvents(k, info, events), env, f);
  }

  // ---- which identity is pinned ----

  /** The identity under the MAC: the one that the PeerInfo among the MAC's inputs shows. */
  function MacdIdentity(k: Primitives, s: ServerState): Result<PeerIdentity> {
    ParsePairingInfo(k, s.m.inp.peerInfo)
  }

  /** A completion pins exactly on a message it accepts, with an identity captured before or to be captured now. */
  lemma PinsExactly(k: Primitives, slot: Slot, env: Envelope, f: Fresh)
    requires HashLaws(k) && SlotOk(k, slot)
    ensures CompletionRequest(k, slot, env, f).pinned.Some? <==>
              && slot.inviter.Some? && Accepts(k, slot.inviter.value.server, env.msg)
              && (slot.inviter.value.joiner.Some?
                  || (slot.inviter.value.server.m.inp.peerInfo != "" && MacdIdentity(k, slot.inviter.value.server).Ok?))
  {
    hide ServerReceive, JoinerOk, Bound, Accepts, ServerPanics, ParsePairingInfo, SlotOk;
    if slot.inviter.Some? {
      ServerStepSafe(k, slot.inviter.value.server, env.msg, f);
      EmptyNotAccepted(k, slot.inviter.value.server);
      AcceptedNoPanic(k, slot.inviter.value.server, env.msg);
      hide ServerKept;
    }
  }

  lemma EmptyNotAccepted(k: Primitives, s: ServerState)
    ensures !Accepts(k, s, Empty)
  {
  }

  lemma AcceptedNoPanic(k: Primitives, s: ServerState, blob: Blob)
    ensures Accepts(k, s, blob) ==> !ServerPanics(k, s, blob)
  {
  }

  /** And what it pins is the identity under the MAC exactly when none was captured before, or that very one. */
  lemma PinnedIsMacdExactly(k: Primitives, slot: Slot, env: Envelope, f: Fresh)
    requires HashLaws(k) && SlotOk(k, slot) && CompletionRequest(k, slot, env, f).pinned.Some?
    ensures slot.inviter.Some?
    ensures var i, p := slot.inviter.value, CompletionRequest(k, slot, env, f).pinned.value;
      MacdIdentity(k, i.server) == Ok(PeerIdentity(p.peer, p.peerCertDer)) <==>
        i.joiner.None? || MacdIdentity(k, i.server) == Ok(i.joiner.value)
  {
    PinsExactly(k, slot, env, f);
    hide ServerReceive, JoinerOk, Bound, Accepts, ServerPanics, ParsePairingInfo, SlotOk;
    ServerStepSafe(k, slot.inviter.value.server, env.msg, f);
    AcceptedNoPanic(k, slot.inviter.value.server, env.msg);
    hide ServerKept;
  }

  // ---- messages that a server takes ----

  const HELLO := NO_WIRE.(type_ := Some(1), peerState := Some(0))

  function KeyWire(k: Primitives, s: ServerState, secret: Bytes, nonce: Bytes): Wire {
    NO_WIRE.(type_ := Some(3), peerId := Some(k.quote(s.m.peerId)),
             pkp := Some(k.showJwk(k.publicKey(KeyPair(P256, secret)))),
             np := Some(Quoted(k, nonce)))
  }

  function ConfirmWire(k: Primitives, s: ServerState, keys: DerivedKeys): Wire
    requires IsHash(k.sha256)
  {
    NO_WIRE.(type_ := Some(6), peerId := Some(k.quote(s.m.peerId)),
             macp := Some(Quoted(k, Mac(k, keys.kmp, 1, s.m.inp))))
  }

  /** The settings `Server::new` makes. */
  predicate Settings(s: ServerState) {
    s.versions == [1] && s.cryptosuites == [2, 1] && s.dirs == 2
  }

  /** What the Noob and the keys rest on is as it was. */
  predicate SecretsKept(s: ServerState, s': ServerState) {
    && s'.m.noob == s.m.noob && s'.m.noobId == s.m.noobId && s'.m.keym == s.m.keym && s'.m.inp.noob == s.m.inp.noob
    && Settings(s')
  }

  predicate SendsOn(r: Reaction) {
    r.Reacted? && r.outcome.send.Some? && !r.outcome.done && r.outcome.error.None? && r.outcome.errorCode.None?
  }

  /** A hello from a peer without a state starts a negotiation, whatever state the server is in. */
  lemma TakesHello(k: Primitives, s: ServerState, f: Fresh)
    requires IsHash(k.sha256) && Settings(s)
    ensures var step := ServerReceive(k, s, Message(HELLO), f);
      SendsOn(step.r) && SecretsKept(s, step.s) && step.s.state == s.state
  {
    hide ShowInts, StartCompletion;
  }

  lemma TakesChoice(k: Primitives, s: ServerState, raw: string, f: Fresh)
    requires HashLaws(k) && TextLaws(k) && Settings(s) && raw != ""
    ensures var step := ServerReceive(k, s, Message(Choice(k, s.m.peerId, raw)), f);
      && SendsOn(step.r) && SecretsKept(s, step.s) && step.s.state == s.state && step.s.m.peerId == s.m.peerId
      && step.s.m.keypair == Some(KeyPair(P256, f.secret)) && step.s.dirp == 2 && step.s.m.inp.peerInfo == raw
  {
    hide TextLaws, HashLaws, ShowInt, ServerNegotiation, ServerReceive, BuildKeyExchange;
    var w := Choice(k, s.m.peerId, raw);
    ServerDispatch(k, s, w, f);
    ChoiceAccepted(k, s, raw, f);
    KeyOffered(k, ChoosingServer(k, s, raw), f);
  }

  function ChoosingServer(k: Primitives, s: ServerState, raw: string): ServerState {
    s.(csp := 2, dirp := 2,
       m := s.m.(suite := Some(P256),
                 inp := s.m.inp.(verp := ShowInt(1), cryptosuitep := ShowInt(2), dirp := ShowInt(2), peerInfo := raw,
                                 nai := k.quote(s.m.nai))))
  }

  lemma ChoiceAccepted(k: Primitives, s: ServerState, raw: string, f: Fresh)
    requires TextLaws(k) && Settings(s) && raw != ""
    ensures ServerNegotiation(k, s, Choice(k, s.m.peerId, raw), f) == BuildKeyExchange(k, ChoosingServer(k, s, raw), f)
  {
    hide TextLaws, ShowInts, ShowInt, BuildKeyExchange;
    OfferReadBack(k);
    TextReadBack(k, s.m.peerId, [], Jwk("", "", "", None));
    var w := Choice(k, s.m.peerId, raw);
    assert PeerIdOk(k, s, w) && ParseInt(k, w.verp) == Some(1) && ParseInt(k, w.cryptosuitep) == Some(2)
        && ParseInt(k, w.dirp) == Some(2);
  }

  lemma KeyOffered(k: Primitives, s: ServerState, f: Fresh)
    requires Settings(s) && s.m.suite == Some(P256)
    ensures var step := BuildKeyExchange(k, s, f);
      && SendsOn(step.r) && SecretsKept(s, step.s) && step.s.state == s.state && step.s.m.peerId == s.m.peerId
      && step.s.m.keypair == Some(KeyPair(P256, f.secret)) && step.s.dirp == s.dirp
      && step.s.m.inp.peerInfo == s.m.inp.peerInfo
  {
  }

  lemma TakesKey(k: Primitives, s: ServerState, own: Bytes, secret: Bytes, nonce: Bytes, f: Fresh)
    requires HashLaws(k) && TextLaws(k) && KeyLaws(k) && Settings(s)
    requires s.m.keypair == Some(KeyPair(P256, own))
    ensures var step := ServerReceive(k, s, Message(KeyWire(k, s, secret, nonce)), f);
      && step.r == DoneFailure() && SecretsKept(s, step.s) && step.s.state == Waiting && step.s.m.peerId == s.m.peerId
      && step.s.dirp == s.dirp && step.s.m.inp.peerInfo == s.m.inp.peerInfo
  {
    TextReadBack(k, s.m.peerId, nonce, k.publicKey(KeyPair(P256, secret)));
    assert k.sharedSecret(KeyPair(P256, own), k.publicKey(KeyPair(P256, secret))).Some?;
    hide TextLaws, KeyLaws, HashLaws, ServerReceive;
    ServerDispatch(k, s, KeyWire(k, s, secret, nonce), f);
  }

  lemma TakesNoobId(k: Primitives, s: ServerState, f: Fresh)
    requires IsHash(k.sha256) && TextLaws(k) && Settings(s)
    ensures NamesNoobId(k, s, Message(NoobIdWire(k, s.m)))
    ensures var step := ServerReceive(k, s, Message(NoobIdWire(k, s.m)), f);
      && SendsOn(step.r) && step.s == s.(m := s.m.(keym := Some(DerivedOf(k, s.m))))
  {
    TextReadBack(k, s.m.peerId, s.m.noobId, Jwk("", "", "", None));
    hide TextLaws, CompletionKeys, Mac;
  }

  // ---- a session whose keys rest on no Noob ----

  /** A reply of 200 that carries this message. */
  function Replied(id: string, w: Wire, f: Fresh): Post {
    Post(Some(Reply(200, WithMsg(id, INITIAL, Message(w)))), f)
  }

  lemma RepliedIteration(k: Primitives, i: InviterState, id: string, w: Wire, f: Fresh)
    requires IsHash(k.sha256)
    ensures PostResult(Replied(id, w, f)) == Ok(WithMsg(id, INITIAL, Message(w)))
    ensures var step := ServerReceive(k, i.server, Message(w), f);
      var next := InviteIter(k, i, WithMsg(id, INITIAL, Message(w)), f);
      && (SendsOn(step.r) ==> next == InviteContinue(i.(server := step.s), step.r.outcome.send.value))
      && (step.r == DoneFailure() && step.s.state == Waiting ==> next == InviteReady(i.(server := step.s)))
  {
    hide ServerReceive;
  }

  /** One reply more at the head of an invite. */
  lemma DriveOn(k: Primitives, i: InviterState, pin: string, id: string, w: Wire, f: Fresh, rest: seq<Post>)
    requires IsHash(k.sha256) && SendsOn(ServerReceive(k, i.server, Message(w), f).r)
    ensures DriveInvite(k, i, pin, [Replied(id, w, f)] + rest) ==
              DriveInvite(k, i.(server := ServerReceive(k, i.server, Message(w), f).s), pin, rest)
  {
    RepliedIteration(k, i, id, w, f);
    hide ServerReceive, InviteIter, InviterSetPin, Replied;
    assert ([Replied(id, w, f)] + rest)[1..] == rest;
  }

  lemma DriveLast(k: Primitives, i: InviterState, pin: string, id: string, w: Wire, f: Fresh)
    requires IsHash(k.sha256)
    requires ServerReceive(k, i.server, Message(w), f).r == DoneFailure()
    requires ServerReceive(k, i.server, Message(w), f).s.state == Waiting
    ensures DriveInvite(k, i, pin, [Replied(id, w, f)]) ==
              InviterSetPin(k, i.(server := ServerReceive(k, i.server, Message(w), f).s), pin)
  {
    RepliedIteration(k, i, id, w, f);
    hide ServerReceive, InviteIter, InviterSetPin, Replied;
  }

  function After(k: Primitives, s: ServerState, w: Wire, f: Fresh): ServerState
    requires IsHash(k.sha256)
  {
    ServerReceive(k, s, Message(w), f).s
  }

  predicate GoesOn(k: Primitives, s: ServerState, w: Wire, f: Fresh)
    requires IsHash(k.sha256)
  {
    SendsOn(ServerReceive(k, s, Message(w), f).r)
  }

  /** The message ends the Initial Exchange at Waiting. */
  predicate Finishes(k: Primitives, s: ServerState, w: Wire, f: Fresh)
    requires IsHash(k.sha256)
  {
    ServerReceive(k, s, Message(w), f).r == DoneFailure() && After(k, s, w, f).state == Waiting
  }

  /** Any server takes hello, choice, a Type 5 with the NoobId it holds, and key. */
  lemma EarlySteps(k: Primitives, s: ServerState, raw: string, f: Fresh) returns (choice: Wire, named: Wire, key: Wire)
    requires Lawful(k) && Settings(s) && raw != ""
    ensures var s1 := After(k, s, HELLO, f);
      var s2 := After(k, s1, choice, f);
      var s3 := After(k, s2, named, f);
      && GoesOn(k, s, HELLO, f) && GoesOn(k, s1, choice, f) && GoesOn(k, s2, named, f) && Finishes(k, s3, key, f)
      && s3.m.keym.Some? && var s4 := After(k, s3, key, f);
         Settings(s4) && s4.dirp == 2 && s4.m.inp.peerInfo == raw && s4.m.keym == s3.m.keym
  {
    assert IsHash(k.sha256);
    hide HashLaws, TextLaws, KeyLaws, InfoLaws, ServerReceive, HELLO, Choice, KeyWire, NoobIdWire;
    hide CompletionKeys, NamesNoobId;
    TakesHello(k, s, f);
    var s1 := After(k, s, HELLO, f);
    TakesChoice(k, s1, raw, f);
    choice := Choice(k, s1.m.peerId, raw);
    var s2 := After(k, s1, choice, f);
    TakesNoobId(k, s2, f);
    named := NoobIdWire(k, s2.m);
    var s3 := After(k, s2, named, f);
    TakesKey(k, s3, f.secret, [], [], f);
    key := KeyWire(k, s3, [], []);
  }

  /**
   * Hello, choice, a Type 5 that names sixteen zeros, key: `create_invite` files a session whose keys rest on
   * no Noob, although the session has its PIN.
   */
  lemma FiledWithoutPin(k: Primitives, info: string, raw: string, pin: string, id: string, f: Fresh)
    returns (posts: seq<Post>, filed: InviterState)
    requires Lawful(k) && raw != ""
    ensures DriveInvite(k, NewInviter(info), pin, posts) == Ok(filed) && NamedEarly(k, NewInviter(info), posts)
    ensures Stored(k, filed) && Settings(filed.server) && filed.joiner.None? && filed.server.m.inp.peerInfo == raw
    ensures filed.server.m.noob == NoobFromPin(pin) && filed.server.m.keym.Some?
    ensures var o := OriginAfterPosts(k, NewInviter(info), posts, NoKeys);
      KeysAre(k, filed, o) && o.From? && o.noob == []
  {
    NewHasNoKeys(k, info);
    posts, filed := EarlyDriven(k, info, raw, pin, id, f);
    FiledIsStored(k, NewInviter(info), pin, posts);
    FiledKeysExactly(k, NewInviter(info), pin, posts, NoKeys);
    assert HashLaws(k) && IsHash(k.sha256);
    hide DriveInvite, NamedEarly, OriginAfterPosts, Stored, NoobFromPin, CompletionKeys, HashLaws, TextLaws;
    hide KeyLaws, InfoLaws;
  }

  lemma EarlyDriven(k: Primitives, info: string, raw: string, pin: string, id: string, f: Fresh)
    returns (posts: seq<Post>, filed: InviterState)
    requires Lawful(k) && raw != ""
    ensures DriveInvite(k, NewInviter(info), pin, posts) == Ok(filed)
    ensures Settings(filed.server) && filed.joiner.None? && filed.server.m.inp.peerInfo == raw
    ensures filed.server.m.noob == NoobFromPin(pin) && filed.server.m.keym.Some?
  {
    assert IsHash(k.sha256);
    hide HashLaws, TextLaws, KeyLaws, InfoLaws, ServerReceive, DriveInvite, InviterSetPin, Replied, HELLO;
    hide NoobFromPin, SendsOn;
    var i0 := NewInviter(info);
    var choice, named, key := EarlySteps(k, i0.server, raw, f);
    var i1 := i0.(server := After(k, i0.server, HELLO, f));
    var i2 := i1.(server := After(k, i1.server, choice, f));
    var i3 := i2.(server := After(k, i2.server, named, f));
    var i4 := i3.(server := After(k, i3.server, key, f));
    var c, n, y := Replied(id, choice, f), Replied(id, named, f), Replied(id, key, f);
    DriveOn(k, i0, pin, id, HELLO, f, [c, n, y]);
    DriveOn(k, i1, pin, id, choice, f, [n, y]);
    DriveOn(k, i2, pin, id, named, f, [y]);
    DriveLast(k, i3, pin, id, key, f);
    posts := [Replied(id, HELLO, f)] + [c, n, y];
    assert [c, n, y] == [c] + [n, y] && [n, y] == [n] + [y];
    PinGoesIn(k, i4, pin);
    filed := InviterSetPin(k, i4, pin).value;
  }

  /** On its own the machine even registers that way, before it was given any Noob. */
  lemma RegistersWithoutNoob(k: Primitives, info: string, raw: string, f: Fresh) returns (msgs: seq<Wire>, last: Wire)
    requires Lawful(k) && raw != ""
    ensures |msgs| == 3 && var s := After(k, After(k, After(k, NewServer(info), msgs[0], f), msgs[1], f), msgs[2], f);
      && s.m.noob == [] && Accepts(k, s, Message(last)) && After(k, s, last, f).state == Registered
  {
    assert IsHash(k.sha256);
    var s := NewServer(info);
    NewHasNoKeys(k, info);
    var choice, named, key := EarlySteps(k, s, raw, f);
    msgs := [HELLO, choice, named];
    var s1 := After(k, s, HELLO, f);
    var s2 := After(k, s1, choice, f);
    var s3 := After(k, s2, named, f);
    InvAfter(k, s, HELLO, f);
    InvAfter(k, s1, choice, f);
    InvAfter(k, s2, named, f);
    last := ConfirmWire(k, s3, s3.m.keym.value);
    AcceptedNoPanic(k, s3, Message(last));
    ServerStepSafe(k, s3, Message(last), f);
    hide *;
  }

  lemma InvAfter(k: Primitives, s: ServerState, w: Wire, f: Fresh)
    requires HashLaws(k) && ServerInv(k, s)
    ensures ServerInv(k, After(k, s, w, f)) && After(k, s, w, f).m.noob == s.m.noob
  {
    ServerStepSafe(k, s, Message(w), f);
    hide ServerReceive, ServerInv, HashLaws;
  }

  /** But `create_invite` gives up on a server that registers, so no such session is filed. */
  lemma EarlyRegistrationFails(k: Primitives, i: InviterState, resp: Envelope, f: Fresh)
    requires HashLaws(k) && Driven(k, i) && Accepts(k, i.server, resp.msg)
    ensures InviteIter(k, i, resp, f).InviteFailed?
  {
    assert ServerInv(k, i.server);
    AcceptedNoPanic(k, i.server, resp.msg);
    ServerStepSafe(k, i.server, resp.msg, f);
    hide ServerReceive, ServerInv, HashLaws, Accepts, ServerPanics;
  }

  lemma PinGoesIn(k: Primitives, i: InviterState, pin: string)
    requires IsHash(k.sha256) && i.server.state == Waiting && i.server.dirp == 2
    ensures var r := InviterSetPin(k, i, pin);
      && r.Ok? && r.value.server.m.noob == NoobFromPin(pin) && r.value.server.m.keym == i.server.m.keym
      && r.value.server.m.inp.peerInfo == i.server.m.inp.peerInfo && r.value.joiner == i.joiner
      && r.value.server == i.server.(m := r.value.server.m)
  {
    hide NoobFromPin;
  }

  /** A MACp under the keys that a stored session holds, whatever their origin, pins what it shows. */
  lemma HeldKeysPair(k: Primitives, i: InviterState, id: string, identity: PeerIdentity, f: Fresh)
    returns (env: Envelope, i': InviterState)
    requires Lawful(k) && Stored(k, i) && i.server.m.keym.Some? && Settings(i.server) && i.server.m.inp.peerInfo != ""
    requires MacdIdentity(k, i.server) == Ok(identity)
    ensures env.phase == COMPLETION && env.inviteId == id
    ensures var step := CompletionRequest(k, Slot(None, Some(i), None), env, f);
      && step.slot == Slot(None, Some(i'), None) && step.pinned.Some?
      && step.pinned.value.kz == i.server.m.keym.value.kz
      && PeerIdentity(step.pinned.value.peer, step.pinned.value.peerCertDer) == OrElse(i.joiner, identity)
      && i'.joiner == Some(OrElse(i.joiner, identity)) && Stored(k, i') && Settings(i'.server)
      && i'.server.m == i.server.m
  {
    var slot := Slot(None, Some(i), None);
    var macp := Message(ConfirmWire(k, i.server, i.server.m.keym.value));
    env := WithMsg(id, COMPLETION, macp);
    assert SlotOk(k, slot);
    CompletionKept(k, slot, env, f);
    PinsExactly(k, slot, env, f);
    AcceptedStep(k, i, env, f);
    hide HashLaws, TextLaws, KeyLaws, InfoLaws, CompletionRequest, Accepts, ParsePairingInfo, Stored;
    hide ConfirmWire, MacpVerifies, Bound;
    i' := CompletionRequest(k, slot, env, f).slot.inviter.value;
  }

  /** What the session captures on a message that it accepts. */
  lemma AcceptedStep(k: Primitives, i: InviterState, env: Envelope, f: Fresh)
    requires HashLaws(k) && Accepts(k, i.server, env.msg)
    requires i.joiner.Some? || (i.server.m.inp.peerInfo != "" && MacdIdentity(k, i.server).Ok?)
    ensures var step := CompletionRequest(k, Slot(None, Some(i), None), env, f);
      && step.slot.inviter.Some? && step.slot == Slot(None, step.slot.inviter, None) && step.pinned.Some?
      && var captured := if i.joiner.Some? then i.joiner.value else MacdIdentity(k, i.server).value;
         && step.slot.inviter.value.joiner == Some(captured)
         && PeerIdentity(step.pinned.value.peer, step.pinned.value.peerCertDer) == captured
         && (Settings(i.server) ==> Settings(step.slot.inviter.value.server))
         && step.slot.inviter.value.server.m == i.server.m
  {
    ServerStepSafe(k, i.server, env.msg, f);
    AcceptedNoPanic(k, i.server, env.msg);
    EmptyNotAccepted(k, i.server);
    hide HashLaws, ServerReceive, Accepts, ServerPanics, ParsePairingInfo, ServerInv;
  }

  // ---- a renegotiation after the capture ----

  /** The session after these messages of the Completion Exchange. */
  function AfterMessages(k: Primitives, i: InviterState, msgs: seq<Wire>, f: Fresh): InviterState
    requires IsHash(k.sha256)
    decreases |msgs|
  {
    if |msgs| == 0 then i else AfterMessages(k, InviterOnCompletion(k, i, Message(msgs[0]), f).i, msgs[1..], f)
  }

  lemma MessageTaken(k: Primitives, i: InviterState, w: Wire, f: Fresh, rest: seq<Wire>)
    requires IsHash(k.sha256) && i.joiner.Some? && ServerReceive(k, i.server, Message(w), f).r.Reacted?
    ensures AfterMessages(k, i, [w] + rest, f) ==
              AfterMessages(k, i.(server := ServerReceive(k, i.server, Message(w), f).s), rest, f)
  {
    hide ServerReceive, ParsePairingInfo;
    assert ([w] + rest)[1..] == rest;
  }

  /**
   * A session that has captured its joiner takes a whole new negotiation over the Completion Exchange, with
   * any other PeerInfo: the next MACp covers that one, and the joiner of the first is pinned again.
   */
  lemma CapturePinnedAgain(k: Primitives, i: InviterState, id: string, raw: string, other: PeerIdentity, f: Fresh)
    returns (msgs: seq<Wire>, env: Envelope)
    requires Lawful(k) && Stored(k, i) && Settings(i.server) && i.joiner.Some?
    requires raw != "" && ParsePairingInfo(k, raw) == Ok(other)
    ensures var before := AfterMessages(k, i, msgs, f);
      var step := CompletionRequest(k, Slot(None, Some(before), None), env, f);
      && before.server.m.inp.peerInfo == raw && before.joiner == i.joiner
      && MacpVerifies(k, before.server, env.msg) && before.server.m.keym == Some(DerivedOf(k, before.server.m))
      && before.server.m.noob == i.server.m.noob
      && step.pinned.Some? && PeerIdentity(step.pinned.value.peer, step.pinned.value.peerCertDer) == i.joiner.value
  {
    msgs := Renegotiation(k, i, raw, f);
    var before := AfterMessages(k, i, msgs, f);
    var env', after := HeldKeysPair(k, before, id, other, f);
    env := env';
    var slot := Slot(None, Some(before), None);
    assert SlotOk(k, slot);
    CompletionKept(k, slot, env, f);
    hide *;
  }

  lemma Renegotiation(k: Primitives, i: InviterState, raw: string, f: Fresh) returns (msgs: seq<Wire>)
    requires Lawful(k) && Stored(k, i) && Settings(i.server) && i.joiner.Some? && raw != ""
    ensures var before := AfterMessages(k, i, msgs, f);
      && Stored(k, before) && Settings(before.server)
      && before.joiner == i.joiner && before.server.m.inp.peerInfo == raw
      && before.server.m.keym == Some(DerivedOf(k, before.server.m)) && before.server.m.noob == i.server.m.noob
  {
    assert IsHash(k.sha256);
    hide HashLaws, TextLaws, KeyLaws, InfoLaws, ServerReceive, AfterMessages, HELLO, SendsOn, Stored, DerivedOf;
    var choice, key, named := LateSteps(k, i.server, raw, f);
    var i1 := i.(server := After(k, i.server, HELLO, f));
    var i2 := i1.(server := After(k, i1.server, choice, f));
    var i3 := i2.(server := After(k, i2.server, key, f));
    var i4 := i3.(server := After(k, i3.server, named, f));
    MessageTaken(k, i, HELLO, f, [choice, key, named]);
    MessageTaken(k, i1, choice, f, [key, named]);
    MessageTaken(k, i2, key, f, [named]);
    MessageTaken(k, i3, named, f, []);
    msgs := [HELLO] + [choice, key, named];
    assert [choice, key, named] == [choice] + [key, named] && [key, named] == [key] + [named];
    assert [named] == [named] + [];
    MessagesKeepStored(k, i, msgs, f);
  }

  /** Any server takes hello, choice and key again, and then makes keys from the Noob it has. */
  lemma LateSteps(k: Primitives, s: ServerState, raw: string, f: Fresh) returns (choice: Wire, key: Wire, named: Wire)
    requires Lawful(k) && Settings(s) && raw != ""
    ensures var s1 := After(k, s, HELLO, f);
      var s2 := After(k, s1, choice, f);
      var s3 := After(k, s2, key, f);
      var s4 := After(k, s3, named, f);
      && Reacts(k, s, HELLO, f) && Reacts(k, s1, choice, f) && Reacts(k, s2, key, f) && Reacts(k, s3, named, f)
      && Settings(s4) && s4.m.noob == s.m.noob && s4.m.inp.peerInfo == raw && s4.m.keym == Some(DerivedOf(k, s4.m))
  {
    assert IsHash(k.sha256);
    hide HashLaws, TextLaws, KeyLaws, InfoLaws, ServerReceive, HELLO, Choice, KeyWire, NoobIdWire;
    hide CompletionKeys, NamesNoobId;
    TakesHello(k, s, f);
    var s1 := After(k, s, HELLO, f);
    TakesChoice(k, s1, raw, f);
    choice := Choice(k, s1.m.peerId, raw);
    var s2 := After(k, s1, choice, f);
    TakesKey(k, s2, f.secret, [], [], f);
    key := KeyWire(k, s2, [], []);
    var s3 := After(k, s2, key, f);
    TakesNoobId(k, s3, f);
    named := NoobIdWire(k, s3.m);
  }

  predicate Reacts(k: Primitives, s: ServerState, w: Wire, f: Fresh)
    requires IsHash(k.sha256)
  {
    ServerReceive(k, s, Message(w), f).r.Reacted?
  }

  lemma {:induction false} MessagesKeepStored(k: Primitives, i: InviterState, msgs: seq<Wire>, f: Fresh)
    requires HashLaws(k) && Stored(k, i)
    ensures Stored(k, AfterMessages(k, i, msgs, f))
    decreases |msgs|
  {
    hide InviterOnCompletion, Stored;
    if |msgs| > 0 {
      StoredKept(k, i, Message(msgs[0]), f);
      MessagesKeepStored(k, InviterOnCompletion(k, i, Message(msgs[0]), f).i, msgs[1..], f);
    }
  }
}
