/** Every run of a lane: the invariant, and what it says about pinning. */
module LaneRuns {
  import opened Octets
  import opened Kdf
  import opened Primitives
  import opened Protocol
  import opened Pin
  import opened Info
  import opened Session
  import opened Node
  import opened Lanes
  import opened Exchange
  import opened LaneSafety
  import opened LanePairing

  // ---- submit_pin ----

  /** Before its last message the exchange registers and pins nothing on the inviter. */
  lemma EarlyPosts(w: World, lane: Lane, m: Move)
    requires WorldOk(w) && Submitting(w, lane) && !Confirming(w, lane) && m.action.PostSubmit?
    ensures HandledUnregistered(InviterHandles(w, lane, lane.submit.value, m))
  {
    hide Lawful, HandleSlot, Ready, HasNoob, CompletionKeys, ParsePairingInfo, NoobIdWire, MacpWire, PeerDiscovery;
    var p := lane.joinerSlot.joiner.value.peer;
    if lane.submit == Some(Kickoff) {
      KickoffPost(w, lane, m);
    } else if lane.submit == Some(Carry(PeerDiscovery(w.k, p))) {
      DiscoveryPost(w, lane, m);
    } else if SameNoobIds(lane) {
      RightNoobIdHandled(w, lane, m);
    } else {
      WrongNoobIdPost(w, lane, m);
    }
  }

  /** A lost request or reply leaves the joiner stuck, and pins agree even if the inviter alone has pinned. */
  lemma SubmitCutShort(w: World, lane: Lane, m: Move)
    requires WorldOk(w) && Submitting(w, lane) && m.action.PostSubmit? && !m.action.delivery.Delivered?
    ensures Stuck(w, SubmitMove(w, lane, m))
  {
    hide TextLaws, KeyLaws, InfoLaws, InviterHandles, Submitting, Confirming, Stuck, NobodyRegistered;
    SubmittingHasPost(w, lane);
    StuckWithoutPin(w, lane, lane.inviterSlot);
    if Confirming(w, lane) {
      PinsTogether(w, lane, m);
    } else {
      EarlyPosts(w, lane, m);
      StuckWithoutPin(w, lane, InviterHandles(w, lane, lane.submit.value, m).slot);
    }
  }

  lemma SubmittingHasPost(w: World, lane: Lane)
    requires IsHash(w.k.sha256) && Submitting(w, lane)
    ensures lane.submit.Some? && NothingPinned(lane)
    ensures lane.inviterSlot.inviter.Some? ==> !ServerDone(lane.inviterSlot.inviter.value.server)
  {
  }

  /** Whatever is lost and whatever PIN was entered, the driver goes on, stops stuck, or ends. */
  lemma SubmitKeeps(w: World, lane: Lane, m: Move)
    requires WorldOk(w) && Submitting(w, lane) && m.action.PostSubmit?
    ensures var next := SubmitMove(w, lane, m); Submitting(w, next) || Stuck(w, next) || Ended(w, next)
  {
    hide TextLaws, KeyLaws, InfoLaws, SubmitMove, Ready, HasNoob, CompletionKeys, ParsePairingInfo, NoobIdWire;
    hide MacpWire, PeerDiscovery;
    hide Stuck, Ended;
    var p := lane.joinerSlot.joiner.value.peer;
    if !m.action.delivery.Delivered? {
      SubmitCutShort(w, lane, m);
    } else if lane.submit == Some(Kickoff) {
      KickoffPost(w, lane, m);
    } else if lane.submit == Some(Carry(PeerDiscovery(w.k, p))) {
      DiscoveryPost(w, lane, m);
    } else if Confirming(w, lane) {
      MacpPost(w, lane, m);
    } else if SameNoobIds(lane) {
      RightNoobIdPost(w, lane, m);
    } else {
      WrongNoobIdPost(w, lane, m);
    }
  }

  // ---- entering a PIN ----

  /** The joiner can be given a PIN: it has six digits and the inviter said where it is. */
  predicate PinTaken(lane: Lane, pin: string) {
    && IsValidPin(pin)
    && lane.joinerSlot.joiner.Some? && lane.joinerSlot.joiner.value.inviter.Some?
    && lane.joinerSlot.joiner.value.inviter.value.info.addr != ""
  }

  lemma PinEntered(w: World, lane: Lane, pin: string)
    requires WorldOk(w) && Invited(w, lane)
    ensures var next := SubmitStart(w, lane, pin);
      if PinTaken(lane, pin) then
        && Submitting(w, next) && next.submit == Some(Kickoff) && next.fed == Some(pin)
        && next == lane.(submit := next.submit, fed := next.fed, joinerSlot := next.joinerSlot)
        && next.joinerSlot.joiner.value.inviter == lane.joinerSlot.joiner.value.inviter
      else next == lane
  {
    hide TextLaws, KeyLaws, InfoLaws, ParsePairingInfo, NoobFromPin;
  }

  /** Only an invite that stands at Waiting, or has died, takes a PIN. */
  lemma PinNotTaken(w: World, lane: Lane, pin: string)
    requires WorldOk(w)
    requires lane == NEW_LANE || Inviting(w, lane) || Submitting(w, lane) || Stuck(w, lane) || Ended(w, lane)
    ensures SubmitStart(w, lane, pin) == lane
  {
    hide TextLaws, KeyLaws, InfoLaws, ParsePairingInfo, NoobFromPin, PinFacts, Offered;
  }

  lemma StartKeeps(w: World, lane: Lane, pin: string)
    requires WorldOk(w) && LaneInv(w, lane)
    ensures LaneInv(w, SubmitStart(w, lane, pin))
  {
    hide TextLaws, KeyLaws, InfoLaws, JoinerFeedPin, Invited, Submitting, Stuck, Ended, Inviting;
    if Invited(w, lane) {
      PinEntered(w, lane, pin);
    } else if Dead(lane) {
      DeadTakesPin(w, lane, pin);
    } else {
      PinNotTaken(w, lane, pin);
    }
  }

  lemma DeadTakesPin(w: World, lane: Lane, pin: string)
    requires WorldOk(w) && Dead(lane)
    ensures Dead(SubmitStart(w, lane, pin))
  {
    hide TextLaws, KeyLaws, InfoLaws, NoobFromPin;
  }

  // ---- every move ----

  /** With no session on the inviter a kickoff is refused. */
  lemma DeadPosts(w: World, lane: Lane, m: Move)
    requires WorldOk(w) && m.action.PostSubmit? && Dead(lane)
    ensures Dead(SubmitMove(w, lane, m)) && SubmitMove(w, lane, m).submit.None?
  {
    hide TextLaws, KeyLaws, InfoLaws, InviterOnCompletion, JoinerOnCompletion;
  }

  lemma SignalHandled(w: World, lane: Lane, s: Submit, m: Move)
    requires WorldOk(w) && s.Notice? && IsSignal(s.phase)
    ensures InviterHandles(w, lane, s, m) ==
              SlotStep(OnSignal(lane.inviterSlot, SubmitEnvelope(w, s)), Some(Reply(200, NO_ENVELOPE)), None)
  {
    hide TextLaws, KeyLaws, InfoLaws, InitialRequest, CompletionRequest;
  }

  /** A signal at most removes the inviter's session. */
  lemma EndedPosts(w: World, lane: Lane, m: Move)
    requires WorldOk(w) && m.action.PostSubmit? && Ended(w, lane)
    ensures var next := SubmitMove(w, lane, m);
      && Ended(w, next) && next.inviterPinned == lane.inviterPinned
      && (lane.submit.Some? ==>
            && next == lane.(submit := None, inviterSlot := next.inviterSlot)
            && (m.action.delivery.Delivered? ==>
                  next.inviterSlot == OnSignal(lane.inviterSlot, SubmitEnvelope(w, lane.submit.value))))
  {
    hide TextLaws, KeyLaws, InfoLaws, ParsePairingInfo, InviterHandles, JoinerOnCompletion, PinNoobId;
    if lane.submit.Some? {
      SignalHandled(w, lane, lane.submit.value, m);
    }
  }

  lemma PostKeeps(w: World, lane: Lane, m: Move)
    requires WorldOk(w) && LaneInv(w, lane) && m.action.PostSubmit?
    ensures LaneInv(w, SubmitMove(w, lane, m))
  {
    hide TextLaws, KeyLaws, InfoLaws, InviterHandles, SubmitResult, InviteStage, SubmitStage, PinFacts;
    if Submitting(w, lane) {
      SubmitKeeps(w, lane, m);
    } else if Ended(w, lane) {
      EndedPosts(w, lane, m);
    } else if Dead(lane) {
      DeadPosts(w, lane, m);
    }
  }

  lemma StepKeeps(w: World, lane: Lane, m: Move)
    requires WorldOk(w) && MoveOk(m) && LaneInv(w, lane)
    ensures LaneInv(w, Advance(w, lane, m))
  {
    hide TextLaws, KeyLaws, InfoLaws, SubmitMove, SubmitStart, InviteResult, SubmitStage, PinFacts, HandleSlot;
    match m.action {
      case StartInvite =>
      case PostInvite(_, _) =>
        if Inviting(w, lane) {
          InviteKeeps(w, lane, m);
        }
      case StartSubmit(pin) => StartKeeps(w, lane, pin);
      case PostSubmit(_) => PostKeeps(w, lane, m);
    }
  }

  ghost predicate MovesOk(moves: seq<Move>) {
    forall i :: 0 <= i < |moves| ==> MoveOk(moves[i])
  }

  /** The invariant holds after every run. */
  lemma {:induction false} RunInv(w: World, moves: seq<Move>)
    requires WorldOk(w) && MovesOk(moves)
    ensures LaneInv(w, Run(w, moves))
  {
    if |moves| > 0 {
      hide Advance, LaneInv, MoveOk;
      RunInv(w, moves[..|moves| - 1]);
      StepKeeps(w, Run(w, moves[..|moves| - 1]), moves[|moves| - 1]);
    }
  }

  // ---- what every run guarantees ----

  /** SHA-256 truncated to 16 octets takes the Noobs of these two PINs apart. */
  ghost predicate NoNoobIdCollision(k: Primitives, a: Option<string>, b: Option<string>)
    requires IsHash(k.sha256)
  {
    a.Some? && b.Some? && PinNoobId(k, a.value) == PinNoobId(k, b.value) ==>
      NoobFromPin(a.value) == NoobFromPin(b.value)
  }

  /** `id` is what the PairingInfo text `raw` says, certificate and all. */
  predicate PinnedFrom(k: Primitives, raw: string, p: Paired) {
    ParsePairingInfo(k, raw) == Ok(PeerIdentity(p.peer, p.peerCertDer)) && Bound(k, p.peer, p.peerCertDer)
  }

  /**
   * At every point of every run, whatever was lost: a joiner that has pinned has an inviter that has pinned
   * with the same Kz; an inviter that has pinned minted the PIN that the joiner was fed; each pinned the
   * identity in the other's PairingInfo. A wrong PIN registers nobody.
   */
  lemma RunSafety(w: World, moves: seq<Move>)
    requires WorldOk(w) && MovesOk(moves)
    requires NoNoobIdCollision(w.k, Run(w, moves).minted, Run(w, moves).fed)
    ensures var lane := Run(w, moves);
      && (lane.joinerPinned.Some? ==>
            lane.inviterPinned.Some? && lane.joinerPinned.value.kz == lane.inviterPinned.value.kz
            && PinnedFrom(w.k, w.inviterInfo, lane.joinerPinned.value))
      && (lane.inviterPinned.Some? ==>
            lane.minted.Some? && lane.fed == lane.minted && PinnedFrom(w.k, w.joinerInfo, lane.inviterPinned.value))
      && (lane.fed != lane.minted ==> NothingPinned(lane) && NobodyRegistered(lane))
  {
    RunInv(w, moves);
    var lane := Run(w, moves);
    hide TextLaws, KeyLaws, InfoLaws, Run, ParsePairingInfo, Bound, NoobFromPin, NobodyRegistered, InviteStage;
    hide Standing;
    InvNobody(w, lane);
    if PinsMatch(w.k, lane) {
      NoobInjective(lane.minted.value, lane.fed.value);
    }
  }

  /** Before the last phases nobody has registered. */
  lemma InvNobody(w: World, lane: Lane)
    requires IsHash(w.k.sha256) && LaneInv(w, lane)
    ensures PinFacts(w, lane)
  {
    hide ParsePairingInfo, NoobFromPin, PinsMatch, Linked, HasNoob, SubmitStage;
    if Inviting(w, lane) {
      InvitingNotDone(w, lane);
    }
  }

  /** What the inviter has pinned stays as it is. */
  lemma PinStays(w: World, lane: Lane, m: Move)
    requires WorldOk(w) && LaneInv(w, lane) && lane.inviterPinned.Some?
    ensures Advance(w, lane, m).inviterPinned == lane.inviterPinned
  {
    hide TextLaws, KeyLaws, InfoLaws, SubmitMove, SubmitStart, InviteStage, SubmitStage, PinFacts, HandleSlot;
    hide InviteResult;
    match m.action {
      case StartSubmit(pin) => PinNotTaken(w, lane, pin);
      case PostSubmit(_) => StuckOrEndedPosts(w, lane, m);
      case _ =>
    }
  }

  lemma StuckOrEndedPosts(w: World, lane: Lane, m: Move)
    requires WorldOk(w) && m.action.PostSubmit? && (Stuck(w, lane) || Ended(w, lane))
    ensures SubmitMove(w, lane, m).inviterPinned == lane.inviterPinned
  {
    hide TextLaws, KeyLaws, InfoLaws, PinFacts, InviterHandles, SubmitResult;
    if Ended(w, lane) {
      EndedPosts(w, lane, m);
    }
  }

  // ---- the drivers stop ----

  /** How many posts `create_invite` has left at most, the next message being `msg`. */
  function InvitePostsLeft(msg: Wire): (n: nat)
    ensures n <= 3
  {
    match msg.type_ case Some(1) => 3 case Some(2) => 2 case Some(3) => 1 case _ => 0
  }

  /** How many posts `submit_pin` has left at most: four for the handshake and one to report its end. */
  function SubmitPostsLeft(s: Submit): (n: nat)
    ensures n <= 5
  {
    match s
    case Kickoff => 5
    case Carry(msg) => (match msg.type_ case Some(1) => 4 case Some(5) => 3 case Some(6) => 2 case _ => 0)
    case Notice(_, _) => 1
  }

  lemma InviteStops(w: World, lane: Lane, m: Move)
    requires WorldOk(w) && MoveOk(m) && m.action.PostInvite? && Inviting(w, lane)
    ensures var next := InviteMove(w, lane, m);
      next.invite.Some? ==> InvitePostsLeft(next.invite.value.msg) < InvitePostsLeft(lane.invite.value.msg)
  {
    hide TextLaws, KeyLaws, InfoLaws, HandleSlot, InviteResult, Invited, NobodyRegistered;
    if m.action.delivery.Delivered? {
      hide InviteMove;
      if Starting(w, lane.invite.value, lane.joinerSlot) {
        FirstPost(w, lane, m);
      } else if Offering(w, lane.invite.value, lane.joinerSlot) {
        SecondPost(w, lane, m);
      } else {
        ThirdPost(w, lane, m);
        hide Starting, Offering, Keying;
        InvitedHasNoInvite(w, InviteMove(w, lane, m));
      }
    }
  }

  lemma InvitedHasNoInvite(w: World, lane: Lane)
    requires IsHash(w.k.sha256) && (Invited(w, lane) || Dead(lane))
    ensures lane.invite.None?
  {
  }

  lemma SubmitStops(w: World, lane: Lane, m: Move)
    requires WorldOk(w) && m.action.PostSubmit? && Submitting(w, lane)
    ensures var next := SubmitMove(w, lane, m);
      next.submit.Some? ==> SubmitPostsLeft(next.submit.value) < SubmitPostsLeft(lane.submit.value)
  {
    hide TextLaws, KeyLaws, InfoLaws, SubmitMove, Ready, HasNoob, DerivedOf, ParsePairingInfo, PinFacts;
    hide NobodyRegistered, Mac, InviterPairing;
    var p := lane.joinerSlot.joiner.value.peer;
    if !m.action.delivery.Delivered? {
      SubmitCutShort(w, lane, m);
    } else if lane.submit == Some(Kickoff) {
      KickoffPost(w, lane, m);
    } else if lane.submit == Some(Carry(PeerDiscovery(w.k, p))) {
      DiscoveryPost(w, lane, m);
    } else if Confirming(w, lane) {
      MacpPost(w, lane, m);
    } else if SameNoobIds(lane) {
      RightNoobIdPost(w, lane, m);
    } else {
      WrongNoobIdPost(w, lane, m);
    }
  }

  /** Each post of `create_invite` leaves it strictly less to post, whatever becomes of the post. */
  lemma InviteDriverStops(w: World, lane: Lane, m: Move)
    requires WorldOk(w) && MoveOk(m) && LaneInv(w, lane) && m.action.PostInvite? && lane.invite.Some?
    ensures var next := Advance(w, lane, m);
      next.invite.Some? ==> InvitePostsLeft(next.invite.value.msg) < InvitePostsLeft(lane.invite.value.msg)
  {
    hide TextLaws, KeyLaws, InfoLaws, InviteMove, InviteStage, SubmitStage, PinFacts, Ready;
    if Inviting(w, lane) {
      InviteStops(w, lane, m);
    }
  }

  /** And so does each post of `submit_pin`. */
  lemma SubmitDriverStops(w: World, lane: Lane, m: Move)
    requires WorldOk(w) && MoveOk(m) && LaneInv(w, lane) && m.action.PostSubmit? && lane.submit.Some?
    ensures var next := Advance(w, lane, m);
      next.submit.Some? ==> SubmitPostsLeft(next.submit.value) < SubmitPostsLeft(lane.submit.value)
  {
    hide TextLaws, KeyLaws, InfoLaws, SubmitMove, InviteStage, SubmitStage, PinFacts, Ready, SubmitPostsLeft;
    if Submitting(w, lane) {
      SubmitStops(w, lane, m);
    } else if Ended(w, lane) {
      EndedPosts(w, lane, m);
    } else if Dead(lane) {
      DeadPosts(w, lane, m);
    }
  }
}
