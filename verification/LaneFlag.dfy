/** What the joiner's clustered flag stops, and what it no longer stops, in one lane. */
module LaneFlag {
  import opened Octets
  import opened Kdf
  import opened Primitives
  import opened Protocol
  import opened Pin
  import opened Info
  import opened Session
  import opened Node
  import opened Lanes
  import opened Exchange
  import opened LaneSafety
  import opened LanePairing
  import opened LaneRuns
  import opened LaneOutcomes

  /** The lane after further moves. */
  function Onward(w: World, lane: Lane, moves: seq<Move>): Lane
    requires IsHash(w.k.sha256)
    decreases |moves|
  {
    if |moves| == 0 then lane else Onward(w, Advance(w, lane, moves[0]), moves[1..])
  }

  lemma OnwardFirst(w: World, lane: Lane, moves: seq<Move>)
    requires IsHash(w.k.sha256)
    ensures |moves| == 0 ==> Onward(w, lane, moves) == lane
    ensures |moves| > 0 ==>
              && Onward(w, lane, moves) == Onward(w, Advance(w, lane, moves[0]), moves[1..])
              && (moves[0].action.PostInvite? ==> Advance(w, lane, moves[0]) == InviteMove(w, lane, moves[0]))
              && (moves[0].action.StartSubmit? ==>
                    Advance(w, lane, moves[0]) == SubmitStart(w, lane, moves[0].action.pin))
              && (moves[0].action.PostSubmit? ==> Advance(w, lane, moves[0]) == SubmitMove(w, lane, moves[0]))
  {
    hide InviteMove, SubmitMove, SubmitStart;
  }

  lemma HashesOf(w: World)
    requires WorldOk(w)
    ensures IsHash(w.k.sha256) && HashLaws(w.k)
  {
    hide TextLaws, KeyLaws, InfoLaws;
  }

  lemma FirstOk(moves: seq<Move>)
    requires MovesOk(moves) && |moves| > 0
    ensures MoveOk(moves[0]) && MovesOk(moves[1..])
  {
  }

  /** The flag is up all along. */
  ghost predicate AllClustered(moves: seq<Move>) {
    forall i :: 0 <= i < |moves| ==> moves[i].clustered
  }

  lemma FirstClustered(moves: seq<Move>)
    requires MovesOk(moves) && AllClustered(moves) && |moves| > 0
    ensures MoveOk(moves[0]) && moves[0].clustered && MovesOk(moves[1..]) && AllClustered(moves[1..])
  {
  }

  /**
   * The joiner has a session of the invite that can still lead to a pin: past its first post, standing, or being
   * answered.
   */
  ghost predicate UnderWay(w: World, lane: Lane)
    requires IsHash(w.k.sha256)
  {
    (lane.invite.Some? && lane.joinerSlot.joiner.Some?) || Invited(w, lane) || Submitting(w, lane)
  }

  /** A run goes on from where it was. */
  lemma {:induction false} RunOnward(w: World, first: seq<Move>, rest: seq<Move>)
    requires IsHash(w.k.sha256)
    ensures Run(w, first + rest) == Onward(w, Run(w, first), rest)
    decreases |rest|
  {
    hide Advance;
    if |rest| == 0 {
      assert first + rest == first;
    } else {
      var longer := first + [rest[0]];
      assert longer[..|longer| - 1] == first && first + rest == longer + rest[1..];
      RunOnward(w, longer, rest[1..]);
    }
  }

  // ---- with the flag up, nothing else pins ----

  /** A post of `create_invite` to a clustered joiner without a session gets no further. */
  lemma ClusteredRefuses(w: World, lane: Lane, m: Move)
    requires WorldOk(w) && MoveOk(m) && m.action.PostInvite? && m.clustered && Inviting(w, lane)
    requires lane.joinerSlot.joiner.None?
    ensures InviteMove(w, lane, m) == lane.(invite := None)
  {
    hide TextLaws, KeyLaws, InfoLaws, Offered, Keyed, AnswerInitial, NewJoiner;
    assert lane.joinerSlot == EMPTY_SLOT;
  }

  lemma NotUnderWayPosts(w: World, lane: Lane, m: Move)
    requires WorldOk(w) && LaneInv(w, lane) && !UnderWay(w, lane) && m.action.PostSubmit?
    ensures var next := SubmitMove(w, lane, m);
      !UnderWay(w, next) && next.joinerPinned == lane.joinerPinned && next.inviterPinned == lane.inviterPinned
  {
    hide TextLaws, KeyLaws, InfoLaws, PinFacts, InviterHandles, SubmitResult, InviteStage;
    if Ended(w, lane) {
      EndedPosts(w, lane, m);
    } else if Dead(lane) {
      DeadPosts(w, lane, m);
    }
  }

  /** A lane that is not under way stays so, and pins nothing more. */
  lemma NotUnderWayKept(w: World, lane: Lane, m: Move)
    requires WorldOk(w) && MoveOk(m) && LaneInv(w, lane) && !UnderWay(w, lane) && m.clustered
    ensures var next := Advance(w, lane, m);
      !UnderWay(w, next) && next.joinerPinned == lane.joinerPinned && next.inviterPinned == lane.inviterPinned
  {
    hide TextLaws, KeyLaws, InfoLaws, PinFacts, SubmitMove, SubmitStart, JoinerHandles, InviteResult;
    hide InviteStage, SubmitStage;
    match m.action {
      case StartInvite =>
      case PostInvite(_, _) =>
        if Inviting(w, lane) {
          ClusteredRefuses(w, lane, m);
        }
      case StartSubmit(pin) =>
        NotUnderWayTakesPin(w, lane, pin);
      case PostSubmit(_) =>
        NotUnderWayPosts(w, lane, m);
    }
  }

  lemma NotUnderWayTakesPin(w: World, lane: Lane, pin: string)
    requires WorldOk(w) && LaneInv(w, lane) && !UnderWay(w, lane)
    ensures var next := SubmitStart(w, lane, pin);
      !UnderWay(w, next) && next.joinerPinned == lane.joinerPinned && next.inviterPinned == lane.inviterPinned
  {
    hide TextLaws, KeyLaws, InfoLaws, PinFacts, InviteStage, SubmitStage, SubmitStart;
    if Dead(lane) {
      DeadTakesPin(w, lane, pin);
      StartPinsNothing(w, lane, pin);
    } else {
      PinNotTaken(w, lane, pin);
    }
  }

  lemma StartPinsNothing(w: World, lane: Lane, pin: string)
    requires IsHash(w.k.sha256)
    ensures var next := SubmitStart(w, lane, pin);
      && next.joinerPinned == lane.joinerPinned && next.inviterPinned == lane.inviterPinned
      && next.invite == lane.invite
      && next.inviterSlot == lane.inviterSlot
  {
    hide JoinerFeedPin;
  }

  lemma {:induction false} NotUnderWayStays(w: World, lane: Lane, moves: seq<Move>)
    requires WorldOk(w) && MovesOk(moves) && AllClustered(moves) && LaneInv(w, lane) && !UnderWay(w, lane)
    ensures var end := Onward(w, lane, moves);
      end.joinerPinned == lane.joinerPinned && end.inviterPinned == lane.inviterPinned
    decreases |moves|
  {
    hide *;
    HashesOf(w);
    OnwardFirst(w, lane, moves);
    if |moves| > 0 {
      FirstClustered(moves);
      NotUnderWayKept(w, lane, moves[0]);
      StepKeeps(w, lane, moves[0]);
      NotUnderWayStays(w, Advance(w, lane, moves[0]), moves[1..]);
    }
  }

  // ---- with a wrong PIN entered, nothing pins ----

  /** The lane takes another PIN than it minted, or has stopped with one. */
  ghost predicate Misfed(w: World, lane: Lane)
    requires IsHash(w.k.sha256)
  {
    && LaneInv(w, lane) && lane.minted.Some? && lane.fed.Some? && lane.minted != lane.fed
    && NoNoobIdCollision(w.k, lane.minted, lane.fed) && (Submitting(w, lane) || Stuck(w, lane) || Ended(w, lane))
  }

  lemma MisfedPinsNothing(w: World, lane: Lane)
    requires IsHash(w.k.sha256) && Misfed(w, lane)
    ensures lane.joinerPinned.None?
  {
    InvNobody(w, lane);
    hide LaneInv, NoobFromPin, ParsePairingInfo, NobodyRegistered, Submitting, Stuck, Ended;
    if PinsMatch(w.k, lane) {
      NoobInjective(lane.minted.value, lane.fed.value);
    }
  }

  lemma MisfedKept(w: World, lane: Lane, m: Move)
    requires WorldOk(w) && MoveOk(m) && Misfed(w, lane)
    ensures Misfed(w, Advance(w, lane, m))
  {
    StepKeeps(w, lane, m);
    hide TextLaws, KeyLaws, InfoLaws, PinFacts, InviterHandles, SubmitIter, SubmitStart, JoinerHandles, InviteResult;
    hide InviteStage, SubmitStage, Ready, NoNoobIdCollision;
    match m.action {
      case StartInvite =>
      case PostInvite(_, _) =>
      case StartSubmit(pin) => PinNotTaken(w, lane, pin);
      case PostSubmit(_) =>
        PinsOfPost(w, lane, m);
        hide SubmitMove;
        if Submitting(w, lane) {
          SubmitKeeps(w, lane, m);
        } else if Ended(w, lane) {
          EndedPosts(w, lane, m);
        }
    }
  }

  /** Posting changes neither PIN. */
  lemma PinsOfPost(w: World, lane: Lane, m: Move)
    requires IsHash(w.k.sha256) && m.action.PostSubmit?
    ensures SubmitMove(w, lane, m).minted == lane.minted && SubmitMove(w, lane, m).fed == lane.fed
    ensures lane.submit.None? ==> SubmitMove(w, lane, m) == lane
  {
    hide InviterHandles, SubmitIter;
  }

  lemma {:induction false} MisfedNeverPins(w: World, lane: Lane, moves: seq<Move>)
    requires WorldOk(w) && MovesOk(moves) && Misfed(w, lane)
    ensures Onward(w, lane, moves).joinerPinned.None?
    decreases |moves|
  {
    hide *;
    HashesOf(w);
    OnwardFirst(w, lane, moves);
    if |moves| == 0 {
      MisfedPinsNothing(w, lane);
    } else {
      FirstOk(moves);
      MisfedKept(w, lane, moves[0]);
      MisfedNeverPins(w, Advance(w, lane, moves[0]), moves[1..]);
    }
  }

  // ---- what is under way can be brought to a pin, flag or no flag ----

  /** The moves take these actions. */
  ghost predicate Acting(moves: seq<Move>, actions: seq<Action>) {
    MovesOk(moves) && |moves| == |actions| && forall i :: 0 <= i < |moves| ==> moves[i].action == actions[i]
  }

  lemma FirstActs(moves: seq<Move>, actions: seq<Action>)
    requires Acting(moves, actions) && |actions| > 0
    ensures |moves| > 0 && moves[0].action == actions[0] && MoveOk(moves[0]) && Acting(moves[1..], actions[1..])
  {
  }

  /** So many posts of the joiner, all delivered. */
  function Posts(n: nat): seq<Action> {
    seq(n, _ => PostSubmit(Delivered))
  }

  /** Both nodes' PairingInfos are sound and the inviter can be reached. */
  predicate BothSound(w: World) {
    Reachable(w) && ParsePairingInfo(w.k, w.joinerInfo).Ok?
  }

  lemma InviterSound(w: World)
    requires BothSound(w)
    ensures ParsePairingInfo(w.k, w.inviterInfo).Ok? && ParsePairingInfo(w.k, w.joinerInfo).Ok?
  {
    hide ParsePairingInfo;
  }

  /** How many posts bring `submit_pin` to its pin, with the right PIN. */
  function PostsToPin(s: Submit): (n: nat)
    ensures n <= 4
  {
    match s
    case Kickoff => 4
    case Carry(msg) => (match msg.type_ case Some(1) => 3 case Some(5) => 2 case _ => 1)
    case Notice(_, _) => 0
  }

  lemma AllPosting(moves: seq<Move>, n: nat)
    requires Acting(moves, Posts(n))
    ensures |moves| == n && forall i :: 0 <= i < n ==> Posting(moves[i]) && moves[i].action.PostSubmit?
  {
    hide MoveOk;
  }

  lemma TwoPosts(w: World, lane: Lane, a: Move, b: Move, rest: seq<Move>)
    requires IsHash(w.k.sha256) && Posting(a) && Posting(b)
    ensures Onward(w, lane, [a, b] + rest) == Onward(w, SubmitMove(w, SubmitMove(w, lane, a), b), rest)
  {
    hide SubmitMove;
    var moves := [a, b] + rest;
    assert moves[1..] == [b] + rest && moves[1..][1..] == rest;
  }

  lemma OnePost(w: World, lane: Lane, a: Move, rest: seq<Move>)
    requires IsHash(w.k.sha256) && Posting(a)
    ensures Onward(w, lane, [a] + rest) == Onward(w, SubmitMove(w, lane, a), rest)
  {
    hide SubmitMove;
    assert ([a] + rest)[1..] == rest;
  }

  /** From the NoobId on. */
  lemma NoobIdPins(w: World, lane: Lane, a: Move, b: Move)
    requires WorldOk(w) && BothSound(w) && Submitting(w, lane) && lane.minted == lane.fed && Posting(a) && Posting(b)
    requires lane.submit == Some(Carry(NoobIdWire(w.k, lane.joinerSlot.joiner.value.peer.m)))
    ensures Onward(w, lane, [a, b]).joinerPinned.Some?
  {
    BothConfirm(w, lane, a, b);
    TwoPosts(w, lane, a, b, []);
    assert [a, b] + [] == [a, b];
    hide WorldOk, BothSound, SubmitMove, Ended, Submitting, NoobIdWire;
  }

  lemma MacpPins(w: World, lane: Lane, a: Move)
    requires WorldOk(w) && BothSound(w) && Confirming(w, lane) && lane.minted == lane.fed && Posting(a)
    ensures Onward(w, lane, [a]).joinerPinned.Some?
  {
    MacpPost(w, lane, a);
    OnePost(w, lane, a, []);
    assert [a] + [] == [a];
    hide WorldOk, SubmitMove, Ended, Stuck, Confirming, ParsePairingInfo;
    hide RegisteredServer, RegisteredPeer, InviterPairing;
  }

  /** The rest of `submit_pin` up to the pin, with the right PIN. */
  lemma SubmitPins(w: World, lane: Lane, moves: seq<Move>)
    requires WorldOk(w) && BothSound(w) && Submitting(w, lane) && lane.minted == lane.fed && lane.submit.Some?
    requires Acting(moves, Posts(PostsToPin(lane.submit.value)))
    ensures Onward(w, lane, moves).joinerPinned.Some?
  {
    hide *;
    HashesOf(w);
    Sessions(w, lane);
    var n := PostsToPin(lane.submit.value);
    AllPosting(moves, n);
    if n == 4 {
      assert moves == [moves[0], moves[1]] + [moves[2], moves[3]];
      TwoPosts(w, lane, moves[0], moves[1], [moves[2], moves[3]]);
      NoobIdSent(w, lane, moves[0], moves[1]);
      NoobIdPins(w, SubmitMove(w, SubmitMove(w, lane, moves[0]), moves[1]), moves[2], moves[3]);
    } else if n == 3 {
      assert moves == [moves[0]] + [moves[1], moves[2]];
      OnePost(w, lane, moves[0], [moves[1], moves[2]]);
      DiscoveryPost(w, lane, moves[0]);
      NoobIdPins(w, SubmitMove(w, lane, moves[0]), moves[1], moves[2]);
    } else if n == 2 {
      assert moves == [moves[0], moves[1]];
      NoobIdPins(w, lane, moves[0], moves[1]);
    } else {
      assert moves == [moves[0]];
      MacpPins(w, lane, moves[0]);
    }
  }

  lemma Sessions(w: World, lane: Lane)
    requires IsHash(w.k.sha256) && Submitting(w, lane)
    ensures lane.inviterSlot.inviter.Some? && lane.joinerSlot.joiner.Some? && lane.submit.Some?
    ensures var submit, p := lane.submit.value, lane.joinerSlot.joiner.value.peer;
      || (submit == Kickoff && PostsToPin(submit) == 4)
      || (submit == Carry(PeerDiscovery(w.k, p)) && PostsToPin(submit) == 3)
      || (submit == Carry(NoobIdWire(w.k, p.m)) && PostsToPin(submit) == 2)
      || (Confirming(w, lane) && PostsToPin(submit) == 1)
  {
    hide NobodyRegistered, ParsePairingInfo, Ready, DerivedOf, Mac;
  }

  /** What brings a lane that is under way to a pin; `pin` is for an invite that has none yet. */
  function Rest(lane: Lane, pin: string): seq<Action> {
    if lane.invite.Some? then
      var n := InvitePostsLeft(lane.invite.value.msg);
      if n == 2 then [PostInvite(Delivered, pin), PostInvite(Delivered, pin), StartSubmit(pin)] + Posts(4)
      else [PostInvite(Delivered, pin), StartSubmit(pin)] + Posts(4)
    else if lane.submit.None? then [StartSubmit(if lane.minted.Some? then lane.minted.value else pin)] + Posts(4)
    else Posts(PostsToPin(lane.submit.value))
  }

  lemma InvitedPins(w: World, lane: Lane, pin: string, moves: seq<Move>)
    requires WorldOk(w) && BothSound(w) && Invited(w, lane) && lane.minted == Some(pin)
    requires Acting(moves, [StartSubmit(pin)] + Posts(4))
    ensures Onward(w, lane, moves).joinerPinned.Some?
  {
    hide *;
    HashesOf(w);
    InvitedTakesPin(w, lane, pin);
    PinEntered(w, lane, pin);
    FirstActs(moves, [StartSubmit(pin)] + Posts(4));
    assert ([StartSubmit(pin)] + Posts(4))[1..] == Posts(4);
    OnwardFirst(w, lane, moves);
    KickoffLeft();
    SubmitPins(w, SubmitStart(w, lane, pin), moves[1..]);
  }

  lemma KickoffLeft()
    ensures PostsToPin(Kickoff) == 4
  {
  }

  lemma InvitedTakesPin(w: World, lane: Lane, pin: string)
    requires WorldOk(w) && BothSound(w) && Invited(w, lane) && lane.minted == Some(pin)
    ensures PinTaken(lane, pin)
  {
    hide TextLaws, KeyLaws, InfoLaws, ParsePairingInfo, HasNoob, Linked;
  }

  lemma KeyingPins(w: World, lane: Lane, pin: string, moves: seq<Move>)
    requires WorldOk(w) && BothSound(w) && Inviting(w, lane) && Keying(w, lane.invite.value, lane.joinerSlot)
    requires Acting(moves, [PostInvite(Delivered, pin), StartSubmit(pin)] + Posts(4))
    ensures Onward(w, lane, moves).joinerPinned.Some?
  {
    hide *;
    HashesOf(w);
    InviterSound(w);
    var actions := [PostInvite(Delivered, pin), StartSubmit(pin)] + Posts(4);
    FirstActs(moves, actions);
    assert actions[1..] == [StartSubmit(pin)] + Posts(4);
    OnwardFirst(w, lane, moves);
    ThirdPost(w, lane, moves[0]);
    InvitedPins(w, InviteMove(w, lane, moves[0]), pin, moves[1..]);
  }

  lemma OfferingPins(w: World, lane: Lane, pin: string, moves: seq<Move>)
    requires WorldOk(w) && BothSound(w) && Inviting(w, lane) && lane.invite.Some?
    requires Offering(w, lane.invite.value, lane.joinerSlot)
    requires Acting(moves, [PostInvite(Delivered, pin), PostInvite(Delivered, pin), StartSubmit(pin)] + Posts(4))
    ensures Onward(w, lane, moves).joinerPinned.Some?
  {
    hide *;
    HashesOf(w);
    var actions := [PostInvite(Delivered, pin), PostInvite(Delivered, pin), StartSubmit(pin)] + Posts(4);
    FirstActs(moves, actions);
    assert actions[1..] == [PostInvite(Delivered, pin), StartSubmit(pin)] + Posts(4);
    OnwardFirst(w, lane, moves);
    SecondPost(w, lane, moves[0]);
    StillInviting(w, lane, InviteMove(w, lane, moves[0]));
    KeyingPins(w, InviteMove(w, lane, moves[0]), pin, moves[1..]);
  }

  lemma StillInviting(w: World, lane: Lane, next: Lane)
    requires Inviting(w, lane) && next == lane.(joinerSlot := next.joinerSlot, invite := next.invite)
    requires next.invite.Some? && Keying(w, next.invite.value, next.joinerSlot)
    ensures Inviting(w, next)
  {
    hide Keying;
  }

  /** Anything under way, the right PIN having been entered if one was, gets to its pin. */
  lemma UnderWayPins(w: World, lane: Lane, pin: string, moves: seq<Move>)
    requires WorldOk(w) && BothSound(w) && LaneInv(w, lane) && UnderWay(w, lane)
    requires Submitting(w, lane) ==> lane.minted == lane.fed
    requires Acting(moves, Rest(lane, pin))
    ensures Onward(w, lane, moves).joinerPinned.Some?
  {
    hide *;
    HashesOf(w);
    PhaseOf(w, lane);
    RestOf(lane, pin);
    if Submitting(w, lane) {
      SubmitPins(w, lane, moves);
    } else if Invited(w, lane) {
      InvitedPins(w, lane, lane.minted.value, moves);
    } else {
      InviteLeft(w, lane);
      if InvitePostsLeft(lane.invite.value.msg) == 2 {
        OfferingPins(w, lane, pin, moves);
      } else {
        KeyingPins(w, lane, pin, moves);
      }
    }
  }

  lemma PhaseOf(w: World, lane: Lane)
    requires IsHash(w.k.sha256) && LaneInv(w, lane) && UnderWay(w, lane)
    ensures Submitting(w, lane) ==> lane.invite.None? && lane.submit.Some?
    ensures Invited(w, lane) ==> lane.invite.None? && lane.submit.None? && lane.minted.Some?
    ensures Submitting(w, lane) || Invited(w, lane)
         || (Inviting(w, lane) && lane.invite.Some? && lane.joinerSlot.joiner.Some?)
  {
    hide InviteStage, SubmitStage, Ready, PinFacts, Linked, HasNoob, NobodyRegistered;
  }

  lemma RestOf(lane: Lane, pin: string)
    ensures lane.invite.Some? && InvitePostsLeft(lane.invite.value.msg) == 2 ==>
              Rest(lane, pin) == [PostInvite(Delivered, pin), PostInvite(Delivered, pin), StartSubmit(pin)] + Posts(4)
    ensures lane.invite.Some? && InvitePostsLeft(lane.invite.value.msg) == 1 ==>
              Rest(lane, pin) == [PostInvite(Delivered, pin), StartSubmit(pin)] + Posts(4)
    ensures lane.invite.None? && lane.submit.None? && lane.minted.Some? ==>
              Rest(lane, pin) == [StartSubmit(lane.minted.value)] + Posts(4)
    ensures lane.invite.None? && lane.submit.Some? ==> Rest(lane, pin) == Posts(PostsToPin(lane.submit.value))
  {
    hide Posts, InvitePostsLeft, PostsToPin;
  }

  lemma InviteLeft(w: World, lane: Lane)
    requires IsHash(w.k.sha256) && Inviting(w, lane) && lane.joinerSlot.joiner.Some?
    ensures (Offering(w, lane.invite.value, lane.joinerSlot) && InvitePostsLeft(lane.invite.value.msg) == 2)
         || (Keying(w, lane.invite.value, lane.joinerSlot) && InvitePostsLeft(lane.invite.value.msg) == 1)
  {
    hide HashLaws, TextLaws, NewInviter, NewJoiner, AgreedInputs;
  }

  // ---- both together ----

  /** Moves that can be made of any actions. */
  function MovesFor(actions: seq<Action>, clustered: bool): seq<Move> {
    var zeros := Fresh(ZEROS_16, [], ZEROS_32);
    seq(|actions|, i requires 0 <= i < |actions| => Move(actions[i], clustered, zeros, zeros))
  }

  lemma MovesForAct(w: World, lane: Lane, pin: string, clustered: bool)
    requires IsValidPin(pin)
    ensures var moves := MovesFor(Rest(lane, pin), clustered);
      Acting(moves, Rest(lane, pin)) && (clustered ==> AllClustered(moves))
  {
    hide IsValidPin;
  }

  /** It is under way, and not with a wrong PIN. */
  ghost predicate CanPin(w: World, lane: Lane)
    requires IsHash(w.k.sha256)
  {
    UnderWay(w, lane) && (lane.fed.Some? ==> lane.fed == lane.minted)
  }

  /**
   * While the joiner is clustered, a lane can still come to a pin if and only if its invite is under way and
   * no wrong PIN was entered.
   */
  lemma StillPinsExactly(w: World, lane: Lane)
    requires WorldOk(w) && BothSound(w) && LaneInv(w, lane) && lane.joinerPinned.None?
    requires NoNoobIdCollision(w.k, lane.minted, lane.fed)
    ensures (exists moves :: MovesOk(moves) && AllClustered(moves) && Onward(w, lane, moves).joinerPinned.Some?) <==>
              CanPin(w, lane)
  {
    hide TextLaws, KeyLaws, InfoLaws, ParsePairingInfo, Onward, LaneInv, NoNoobIdCollision, Rest, MovesFor;
    UnderWayPhases(w, lane);
    if CanPin(w, lane) {
      var pin := "000000";
      var moves := MovesFor(Rest(lane, pin), true);
      MovesForAct(w, lane, pin, true);
      UnderWayPins(w, lane, pin, moves);
      assert MovesOk(moves) && AllClustered(moves) && Onward(w, lane, moves).joinerPinned.Some?;
    } else {
      forall moves | MovesOk(moves) && AllClustered(moves)
        ensures Onward(w, lane, moves).joinerPinned.None?
      {
        if UnderWay(w, lane) {
          MisfedNeverPins(w, lane, moves);
        } else {
          NotUnderWayStays(w, lane, moves);
        }
      }
    }
  }

  lemma UnderWayPhases(w: World, lane: Lane)
    requires IsHash(w.k.sha256) && LaneInv(w, lane)
    ensures UnderWay(w, lane) ==> (lane.fed.Some? <==> Submitting(w, lane))
    ensures UnderWay(w, lane) && Submitting(w, lane) ==> lane.minted.Some?
  {
    hide InviteStage, SubmitStage, Ready, PinFacts, Linked, HasNoob;
  }
}
