/** Where a lane ends when nothing is lost: with the right PIN, and with a wrong one. */
module LaneOutcomes {
  import opened Octets
  import opened Kdf
  import opened Primitives
  import opened Protocol
  import opened Pin
  import opened Info
  import opened Profile
  import opened Session
  import opened Node
  import opened Lanes
  import opened Exchange
  import opened Replies
  import opened LaneSafety
  import opened LanePairing
  import opened LaneRuns

  // ---- the script: an invite in three posts, a PIN, and `posts` posts of the joiner ----

  function Script(pin: string, entered: string, posts: nat): seq<Action> {
    [StartInvite, PostInvite(Delivered, pin), PostInvite(Delivered, pin), PostInvite(Delivered, pin),
     StartSubmit(entered)]
    + seq(posts, _ => PostSubmit(Delivered))
  }

  /** The moves follow the script, and the joiner is not clustered when the invite arrives. */
  ghost predicate Follows(moves: seq<Move>, script: seq<Action>) {
    && |moves| == |script| && MovesOk(moves)
    && (forall i :: 0 <= i < |moves| ==> moves[i].action == script[i])
    && (|moves| > 1 ==> !moves[1].clustered)
  }

  /** The lane after the first `n` moves. */
  function At(w: World, moves: seq<Move>, n: nat): Lane
    requires IsHash(w.k.sha256) && n <= |moves|
  {
    Run(w, moves[..n])
  }

  lemma NextAt(w: World, moves: seq<Move>, n: nat)
    requires IsHash(w.k.sha256) && n < |moves|
    ensures At(w, moves, n + 1) == Advance(w, At(w, moves, n), moves[n])
  {
    hide Advance;
    assert moves[..n + 1][..n] == moves[..n];
  }

  /** The posts of the invite, one after the other. */
  lemma InvitePosts(w: World, moves: seq<Move>, pin: string, entered: string, posts: nat)
    requires WorldOk(w) && Follows(moves, Script(pin, entered, posts)) && ParsePairingInfo(w.k, w.inviterInfo).Ok?
    ensures var first, second, third := At(w, moves, 1), At(w, moves, 2), At(w, moves, 3);
      && first.invite == Some(Invite(NewInviter(w.inviterInfo), START)) && first.joinerSlot == EMPTY_SLOT
      && second.invite.Some? && second == Advance(w, first, moves[1])
      && third.invite.Some? && third == Advance(w, second, moves[2])
      && At(w, moves, 4) == Advance(w, third, moves[3])
      && first.minted.None? && second.minted.None? && third.minted.None?
      && Invited(w, At(w, moves, 4)) && At(w, moves, 4).minted == Some(pin)
  {
    hide TextLaws, KeyLaws, InfoLaws, ParsePairingInfo, InviteMove, At, SubmitMove, SubmitStart, Invited;
    hide Offering, Keying;
    NextAt(w, moves, 0);
    NextAt(w, moves, 1);
    NextAt(w, moves, 2);
    NextAt(w, moves, 3);
    assert At(w, moves, 0) == NEW_LANE by { NewAt(w, moves); }
    FirstPost(w, At(w, moves, 1), moves[1]);
    SecondPost(w, At(w, moves, 2), moves[2]);
    ThirdPost(w, At(w, moves, 3), moves[3]);
  }

  /** After three posts the invite stands, with the minted PIN. */
  lemma InviteStands(w: World, moves: seq<Move>, pin: string, entered: string, posts: nat)
    requires WorldOk(w) && Follows(moves, Script(pin, entered, posts))
    requires ParsePairingInfo(w.k, w.inviterInfo).Ok?
    ensures Invited(w, At(w, moves, 4)) && At(w, moves, 4).minted == Some(pin)
  {
    hide TextLaws, KeyLaws, InfoLaws, ParsePairingInfo, InviteMove, At, Invited;
    InvitePosts(w, moves, pin, entered, posts);
  }

  lemma NewAt(w: World, moves: seq<Move>)
    requires IsHash(w.k.sha256)
    ensures At(w, moves, 0) == NEW_LANE
  {
  }

  /** The inviter's PairingInfo is sound and says where it can be reached. */
  predicate Reachable(w: World) {
    var id := ParsePairingInfo(w.k, w.inviterInfo);
    id.Ok? && id.value.info.addr != ""
  }

  /** The PIN is taken, whether or not it is the right one. */
  lemma PinGoesIn(w: World, moves: seq<Move>, pin: string, entered: string, posts: nat)
    requires WorldOk(w) && Follows(moves, Script(pin, entered, posts)) && Reachable(w) && IsValidPin(entered)
    ensures var lane := At(w, moves, 5);
      Submitting(w, lane) && lane.submit == Some(Kickoff) && lane.minted == Some(pin) && lane.fed == Some(entered)
  {
    hide TextLaws, KeyLaws, InfoLaws, ParsePairingInfo, At, InviteMove, SubmitMove, SubmitStart, Submitting;
    hide Linked, HasNoob;
    InviteStands(w, moves, pin, entered, posts);
    NextAt(w, moves, 4);
    PinEntered(w, At(w, moves, 4), entered);
  }

  /** Two posts bring the joiner to send its NoobId. */
  lemma NoobIdSent(w: World, lane: Lane, first: Move, second: Move)
    requires WorldOk(w) && Submitting(w, lane) && lane.submit == Some(Kickoff) && Posting(first) && Posting(second)
    ensures var next := SubmitMove(w, SubmitMove(w, lane, first), second);
      && Submitting(w, next) && next.minted == lane.minted && next.fed == lane.fed
      && next.submit == Some(Carry(NoobIdWire(w.k, next.joinerSlot.joiner.value.peer.m)))
  {
    hide TextLaws, KeyLaws, InfoLaws, ParsePairingInfo, SubmitMove, Ready, HasNoob, PeerDiscovery, NoobIdWire;
    KickoffPost(w, lane, first);
    var mid := SubmitMove(w, lane, first);
    assert Submitting(w, mid);
    hide Standing;
    DiscoveryPost(w, mid, second);
  }

  lemma NoobIdComes(w: World, moves: seq<Move>, pin: string, entered: string, posts: nat)
    requires WorldOk(w) && Follows(moves, Script(pin, entered, posts)) && posts >= 2
    requires Reachable(w) && IsValidPin(entered)
    ensures var lane := At(w, moves, 7);
      && Submitting(w, lane) && lane.minted == Some(pin) && lane.fed == Some(entered)
      && lane.submit == Some(Carry(NoobIdWire(w.k, lane.joinerSlot.joiner.value.peer.m)))
  {
    hide TextLaws, KeyLaws, InfoLaws, ParsePairingInfo, At, InviteMove, SubmitMove, SubmitStart, Submitting;
    hide NoobIdWire, MoveOk;
    PinGoesIn(w, moves, pin, entered, posts);
    NextAt(w, moves, 5);
    NextAt(w, moves, 6);
    NoobIdSent(w, At(w, moves, 5), moves[5], moves[6]);
  }

  /**
   * After the kickoff the joiner carries a Type 1 that shows state 2 and the PeerId that the inviter's server
   * assigned, wherever in a run that is.
   */
  lemma KickoffShows(w: World, moves: seq<Move>, m: Move)
    requires WorldOk(w) && MovesOk(moves) && Posting(m) && Run(w, moves).submit == Some(Kickoff)
    requires Run(w, moves).inviterSlot.inviter.Some?
    ensures var carried := SubmitMove(w, Run(w, moves), m).submit;
      && carried.Some? && carried.value.Carry?
      && carried.value.msg.type_ == Some(1) && carried.value.msg.peerState == Some(2)
      && Reads(w.k, carried.value.msg.peerId, Run(w, moves).inviterSlot.inviter.value.server.m.peerId)
  {
    RunInv(w, moves);
    var lane := Run(w, moves);
    KickedOff(w, lane);
    KickoffPost(w, lane, m);
    hide TextLaws, HashLaws, KeyLaws, InfoLaws, Run, SubmitMove, PeerDiscovery, LaneInv, Submitting, Reads;
  }

  lemma KickedOff(w: World, lane: Lane)
    requires IsHash(w.k.sha256) && LaneInv(w, lane) && lane.submit == Some(Kickoff) && lane.inviterSlot.inviter.Some?
    ensures Submitting(w, lane) && lane.joinerSlot.joiner.Some?
    ensures var p := lane.joinerSlot.joiner.value.peer;
      p.state == OobReceived && p.m.peerId == lane.inviterSlot.inviter.value.server.m.peerId && p.m.peerId != ""
  {
    hide InviteStage, SubmitStage, PinFacts, HasNoob, NobodyRegistered, ParsePairingInfo;
  }

  // ---- the right PIN ----

  /** Both machines are registered with the same inputs and key, and each node has pinned the other's certificate. */
  ghost predicate Agreed(w: World, lane: Lane) {
    && lane.inviterSlot.inviter.Some? && lane.last.Some? && lane.inviterPinned.Some? && lane.joinerPinned.Some?
    && (var s, p := lane.inviterSlot.inviter.value.server, lane.last.value.peer;
       && s.state == Registered && p.state == Registered && s.m.inp == p.m.inp
       && s.assoc.Some? && p.assoc.Some?
       && s.assoc.value.kz == p.assoc.value.kz == lane.inviterPinned.value.kz == lane.joinerPinned.value.kz
       && s.assoc.value.peerId == p.assoc.value.peerId
       && s.assoc.value.cryptosuitep == p.assoc.value.cryptosuitep == 2)
    && PinnedFrom(w.k, w.joinerInfo, lane.inviterPinned.value)
    && PinnedFrom(w.k, w.inviterInfo, lane.joinerPinned.value)
  }

  lemma PairedAgree(w: World, lane: Lane, next: Lane)
    requires WorldOk(w) && Confirming(w, lane) && lane.minted == lane.fed && BothPaired(w, lane, next)
    ensures Agreed(w, next)
  {
    hide TextLaws, KeyLaws, InfoLaws, CompletionKeys, NoobFromPin, Bound;
    var s, p := lane.inviterSlot.inviter.value.server, lane.joinerSlot.joiner.value.peer;
    SameNoobSameKeys(w.k, s, p, NoobFromPin(lane.minted.value), NoobFromPin(lane.fed.value));
    hide ParsePairingInfo;
  }

  lemma SameIds(w: World, lane: Lane)
    requires WorldOk(w) && Submitting(w, lane) && lane.minted == lane.fed
    ensures SameNoobIds(lane)
  {
    hide TextLaws, KeyLaws, InfoLaws, NoobFromPin, CompletionKeys, ParsePairingInfo;
    SameNoobSameKeys(w.k, lane.inviterSlot.inviter.value.server, lane.joinerSlot.joiner.value.peer,
                     NoobFromPin(lane.minted.value), NoobFromPin(lane.fed.value));
  }

  /** With the right PIN two more posts pair both sides. */
  lemma BothConfirm(w: World, lane: Lane, first: Move, second: Move)
    requires WorldOk(w) && Submitting(w, lane) && lane.minted == lane.fed && Posting(first) && Posting(second)
    requires lane.submit == Some(Carry(NoobIdWire(w.k, lane.joinerSlot.joiner.value.peer.m)))
    requires ParsePairingInfo(w.k, w.joinerInfo).Ok?
    ensures var next := SubmitMove(w, SubmitMove(w, lane, first), second);
      && Agreed(w, next) && Ended(w, next) && next.submit == Some(Notice(ACK, "")) && next.joinerSlot.pending.None?
  {
    hide TextLaws, KeyLaws, InfoLaws, ParsePairingInfo, SubmitMove, Ready, HasNoob, CompletionKeys, NoobIdWire;
    hide MacpWire, Standing, Agreed;
    SameIds(w, lane);
    RightNoobIdPost(w, lane, first);
    var mid := SubmitMove(w, lane, first);
    SameIds(w, mid);
    MacpPost(w, mid, second);
    hide SubmitStage, Stuck, PinFacts;
    PairedAgree(w, mid, SubmitMove(w, mid, second));
  }

  /**
   * The honest run: three posts of `create_invite`, the minted PIN, four posts of `submit_pin` and its ACK.
   * It ends in agreement, with nothing left to do.
   */
  lemma HonestRun(w: World, moves: seq<Move>, pin: string)
    requires WorldOk(w) && Follows(moves, Script(pin, pin, 5)) && Reachable(w) && IsValidPin(pin)
    requires ParsePairingInfo(w.k, w.joinerInfo).Ok?
    ensures var lane := Run(w, moves);
      && Agreed(w, lane) && lane.invite.None? && lane.submit.None?
      && lane.joinerSlot.joiner.None? && lane.joinerSlot.pending.None?
  {
    hide TextLaws, KeyLaws, InfoLaws, ParsePairingInfo, At, Run, InviteMove, SubmitMove, SubmitStart;
    hide Submitting, NoobIdWire, Agreed, PinFacts, MoveOk;
    NoobIdComes(w, moves, pin, pin, 5);
    NextAt(w, moves, 7);
    NextAt(w, moves, 8);
    NextAt(w, moves, 9);
    BothConfirm(w, At(w, moves, 7), moves[7], moves[8]);
    AckChangesNothing(w, At(w, moves, 9), moves[9]);
    assert At(w, moves, 10) == Run(w, moves) by { AtEnd(w, moves); }
  }

  lemma AtEnd(w: World, moves: seq<Move>)
    requires IsHash(w.k.sha256)
    ensures At(w, moves, |moves|) == Run(w, moves)
  {
    assert moves[..|moves|] == moves;
  }

  lemma AckChangesNothing(w: World, lane: Lane, m: Move)
    requires WorldOk(w) && Ended(w, lane) && Agreed(w, lane) && lane.submit == Some(Notice(ACK, "")) && Posting(m)
    ensures Ended(w, SubmitMove(w, lane, m)) && SubmitMove(w, lane, m) == lane.(submit := None)
    ensures Agreed(w, SubmitMove(w, lane, m))
  {
    hide TextLaws, KeyLaws, InfoLaws, ParsePairingInfo, SubmitMove, PinFacts;
    EndedPosts(w, lane, m);
  }

  /**
   * Two nodes with sound identities, of which the inviter can be reached: each ends up with exactly what the
   * other says of itself, under one key.
   */
  lemma NodesPair(w: World, inviter: PeerIdentity, joiner: PeerIdentity, moves: seq<Move>, pin: string)
    requires WorldOk(w) && w.inviterInfo == w.k.showInfo(inviter.info) && w.joinerInfo == w.k.showInfo(joiner.info)
    requires Bound(w.k, inviter.info, inviter.certDer) && Bound(w.k, joiner.info, joiner.certDer)
    requires inviter.info.v < 0x1_0000_0000 && inviter.info.admissionEpoch < 0x1_0000_0000_0000_0000
    requires joiner.info.v < 0x1_0000_0000 && joiner.info.admissionEpoch < 0x1_0000_0000_0000_0000
    requires inviter.info.addr != "" && IsValidPin(pin) && Follows(moves, Script(pin, pin, 5))
    ensures var lane := Run(w, moves);
      && lane.inviterPinned.Some? && lane.joinerPinned.Some?
      && lane.inviterPinned.value.kz == lane.joinerPinned.value.kz
      && PeerIdentity(lane.inviterPinned.value.peer, lane.inviterPinned.value.peerCertDer) == joiner
      && PeerIdentity(lane.joinerPinned.value.peer, lane.joinerPinned.value.peerCertDer) == inviter
  {
    hide TextLaws, KeyLaws, InfoLaws, ParsePairingInfo, Run, Bound;
    PrintedInfoParses(w.k, inviter.info, inviter.certDer);
    PrintedInfoParses(w.k, joiner.info, joiner.certDer);
    HonestRun(w, moves, pin);
  }

  /**
   * For the nodes there are: two profiles with certified identities pair, each ends up with what the other's
   * profile shows and with its certificate, and the fingerprint that is pinned is the one that was shown.
   */
  lemma ProfilesPair(w: World, inviter: NodeProfile, joiner: NodeProfile, moves: seq<Move>, pin: string)
    requires WorldOk(w)
    requires w.inviterInfo == w.k.showInfo(InfoOf(w.k, inviter)) && w.joinerInfo == w.k.showInfo(InfoOf(w.k, joiner))
    requires Certified(w.k, inviter.identity) && inviter.identity.nodeUuid != ""
    requires Certified(w.k, joiner.identity) && joiner.identity.nodeUuid != ""
    requires inviter.admissionEpoch < 0x1_0000_0000_0000_0000 && joiner.admissionEpoch < 0x1_0000_0000_0000_0000
    requires inviter.advertisedAddr != "" && IsValidPin(pin) && Follows(moves, Script(pin, pin, 5))
    ensures var lane := Run(w, moves);
      && lane.inviterPinned.Some? && lane.joinerPinned.Some?
      && lane.inviterPinned.value.kz == lane.joinerPinned.value.kz
      && ShownAndPinned(w.k, joiner, lane.inviterPinned.value) && ShownAndPinned(w.k, inviter, lane.joinerPinned.value)
  {
    ProfileIsBound(w.k, inviter);
    ProfileIsBound(w.k, joiner);
    hide TextLaws, KeyLaws, InfoLaws, ParsePairingInfo, Run, Bound, Follows, Pem.PemToDer, PinStore.Fingerprint;
    NodesPair(w, PeerIdentity(InfoOf(w.k, inviter), inviter.identity.certDer),
              PeerIdentity(InfoOf(w.k, joiner), joiner.identity.certDer), moves, pin);
  }

  /** The pairing is with what this profile shows, and pinning it files its certificate under the shown fingerprint. */
  ghost predicate ShownAndPinned(k: Primitives, p: NodeProfile, paired: Paired) {
    && paired.peer == PairingInfo(2, p.identity.nodeUuid, PinStore.Fingerprint(k, p.identity.certDer), p.name,
                                  p.clusterId, if p.admissionEpoch == 0 then 1 else p.admissionEpoch,
                                  p.clusterFriendlyName, p.advertisedAddr, p.identity.certPem)
    && paired.peerCertDer == p.identity.certDer
    && (forall pins: PinStore.Pins :: PinStore.Pin(k, pins, paired.peerCertDer) ==
          pins[p.identity.nodeUuid := PinStore.PinnedPeer(p.identity.nodeUuid, p.identity.certDer, paired.peer.nodeId)])
  }

  /** After the three posts of the invite the joiner's user is shown who invites: the inviter's own profile. */
  lemma PendingShowsProfile(w: World, inviter: NodeProfile, moves: seq<Move>, pin: string, entered: string, posts: nat)
    requires WorldOk(w) && w.inviterInfo == w.k.showInfo(InfoOf(w.k, inviter))
    requires Certified(w.k, inviter.identity) && inviter.identity.nodeUuid != ""
    requires inviter.admissionEpoch < 0x1_0000_0000_0000_0000 && Follows(moves, Script(pin, entered, posts))
    ensures var pending := At(w, moves, 4).joinerSlot.pending;
      && pending.Some? && pending.value.inviteId == w.id && pending.value.fromNodeUuid == inviter.identity.nodeUuid
      && pending.value.fromName == inviter.name && pending.value.clusterId == inviter.clusterId
      && pending.value.clusterFriendlyName == inviter.clusterFriendlyName
      && pending.value.inviterAddr == inviter.advertisedAddr
  {
    ProfileParsesExactly(w.k, inviter);
    hide TextLaws, KeyLaws, InfoLaws, ParsePairingInfo, At, Follows, HasNoob, Linked, Certified;
    InviteStands(w, moves, pin, entered, posts);
  }

  // ---- a wrong PIN ----

  lemma DifferentIds(w: World, lane: Lane)
    requires WorldOk(w) && Submitting(w, lane) && lane.minted != lane.fed
    requires NoNoobIdCollision(w.k, lane.minted, lane.fed)
    ensures !SameNoobIds(lane)
  {
    hide TextLaws, KeyLaws, InfoLaws, NoobFromPin, CompletionKeys, ParsePairingInfo;
    var minted, fed := lane.minted.value, lane.fed.value;
    if PinNoobId(w.k, minted) == PinNoobId(w.k, fed) {
      NoobInjective(minted, fed);
    }
  }

  /** The refusal and the FAIL that follows it. */
  lemma RefusedAndFailed(w: World, lane: Lane, first: Move, second: Move)
    requires WorldOk(w) && Submitting(w, lane) && !SameNoobIds(lane) && Posting(first) && Posting(second)
    requires lane.submit == Some(Carry(NoobIdWire(w.k, lane.joinerSlot.joiner.value.peer.m)))
    ensures var refused := SubmitMove(w, lane, first);
      && refused.submit == Some(Notice(FAIL, INCORRECT_PIN))
      && refused.refused == Some((true, Some(UNRECOGNIZED_OOB_MSG_ID)))
      && var next := SubmitMove(w, refused, second);
         && next.refused == refused.refused && next.submit.None? && NothingPinned(next) && NobodyRegistered(next)
         && next.joinerSlot.joiner.None? && next.joinerSlot.pending.None? && next.inviterSlot.inviter.None?
  {
    hide TextLaws, KeyLaws, InfoLaws, ParsePairingInfo, SubmitMove, Ready, HasNoob, CompletionKeys, NoobIdWire;
    hide MacpWire, PinFacts;
    WrongNoobIdPost(w, lane, first);
    var refused := SubmitMove(w, lane, first);
    EndedPosts(w, refused, second);
  }

  /**
   * The same run with another valid PIN: it ends with code 2003 as an authentication failure, nothing is
   * pinned, no machine holds an association, and once FAIL has arrived neither node holds anything for the id.
   */
  lemma WrongPinRun(w: World, moves: seq<Move>, pin: string, entered: string)
    requires WorldOk(w) && Follows(moves, Script(pin, entered, 4)) && Reachable(w)
    requires IsValidPin(pin) && IsValidPin(entered) && pin != entered
    requires NoNoobIdCollision(w.k, Some(pin), Some(entered))
    ensures var lane := Run(w, moves);
      && lane.refused == Some((true, Some(2003)))
      && NothingPinned(lane) && NobodyRegistered(lane) && lane.submit.None?
      && lane.joinerSlot.joiner.None? && lane.joinerSlot.pending.None? && lane.inviterSlot.inviter.None?
    ensures At(w, moves, 8).submit == Some(Notice("fail", "incorrect-pin"))
  {
    hide TextLaws, KeyLaws, InfoLaws, ParsePairingInfo, At, Run, InviteMove, SubmitMove, SubmitStart;
    hide Submitting, NoobIdWire, MoveOk;
    hide NobodyRegistered, NoobFromPin, PinNoobId, SameNoobIds;
    NoobIdComes(w, moves, pin, entered, 4);
    NextAt(w, moves, 7);
    NextAt(w, moves, 8);
    DifferentIds(w, At(w, moves, 7));
    RefusedAndFailed(w, At(w, moves, 7), moves[7], moves[8]);
    assert At(w, moves, 9) == Run(w, moves) by { AtEnd(w, moves); }
  }
}
