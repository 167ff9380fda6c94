/**
 * How far a node keeps to one cluster: which of its invites can still pin once a pairing has raised its
 * clustered flag, over every continuation of every run of two nodes.
 */
module SingleCluster {
  import opened Kdf
  import opened Primitives
  import opened Pin
  import opened Info
  import opened Exchange
  import opened Lanes
  import opened LaneSafety
  import opened LaneRuns
  import opened LaneOutcomes
  import opened LaneFlag
  import opened LaneSystem

  // ---- going on ----

  lemma SameWorld(n: Nodes, id: string)
    ensures WorldOf(n, id).k == n.k
    ensures WorldOk(WorldOf(n, id)) ==> IsHash(n.k.sha256)
  {
    if WorldOk(WorldOf(n, id)) {
      HashesOf(WorldOf(n, id));
    }
    hide WorldOk, IsHash;
  }

  lemma MovesJoin(a: seq<SystemMove>, b: seq<SystemMove>)
    requires SystemMovesOk(a) && SystemMovesOk(b)
    ensures SystemMovesOk(a + b)
  {
    hide MoveOk;
  }

  /** What a lane makes of further moves of the system. */
  ghost predicate Share(more: seq<SystemMove>, id: string, rest: seq<Move>) {
    && MovesOk(rest)
    && ((forall i :: 0 <= i < |more| ==> more[i].id != id) ==> rest == [])
    && ((forall i :: 0 <= i < |more| ==> more[i].id == id) ==>
          |rest| == |more| && forall i :: 0 <= i < |more| ==> rest[i] == more[i].move.(clustered := rest[i].clustered))
  }

  /** One move more of the system is one more of its lane. */
  lemma ShareGrows(more: seq<SystemMove>, id: string, rest: seq<Move>, move: Move)
    requires |more| > 0 && Share(more[..|more| - 1], id, rest) && MoveOk(more[|more| - 1].move)
    requires move == more[|more| - 1].move.(clustered := move.clustered)
    ensures Share(more, id, rest + if more[|more| - 1].id == id then [move] else [])
  {
    var before := more[..|more| - 1];
    hide MoveOk;
    assert forall i :: 0 <= i < |before| ==> before[i] == more[i];
    assert |more| > 1 ==> before[0] == more[0];
    assert rest + [] == rest;
  }

  /** Its moves go on from those before, and meet the flag up if it is up. */
  lemma {:induction false} ProjectedExtends(n: Nodes, moves: seq<SystemMove>, more: seq<SystemMove>, id: string)
    returns (rest: seq<Move>)
    requires IsHash(n.k.sha256) && SystemMovesOk(more)
    ensures Projected(n, moves + more, id) == Projected(n, moves, id) + rest && Share(more, id, rest)
    ensures SystemRun(n, moves).clustered ==> SystemRun(n, moves + more).clustered && AllClustered(rest)
    decreases |more|
  {
    hide Advance, MoveOk, Share;
    if |more| == 0 {
      rest := [];
      assert moves + more == moves && Projected(n, moves, id) + [] == Projected(n, moves, id);
      NoShare(more, id);
    } else {
      var before, last := more[..|more| - 1], more[|more| - 1];
      var earlier := ProjectedExtends(n, moves, before, id);
      assert (moves + more)[..|moves + more| - 1] == moves + before && (moves + more)[|moves + more| - 1] == last;
      var move := last.move.(clustered := SystemRun(n, moves + before).clustered);
      ShareGrows(more, id, earlier, move);
      rest := earlier + if last.id == id then [move] else [];
      hide SystemRun;
      assert Projected(n, moves, id) + rest ==
             Projected(n, moves, id) + earlier + if last.id == id then [move] else [];
    }
  }

  lemma NoShare(more: seq<SystemMove>, id: string)
    requires |more| == 0
    ensures Share(more, id, [])
  {
  }

  /** So each lane goes on by its own moves, and a lane without any stays as it is. */
  lemma LaneGoesOn(n: Nodes, moves: seq<SystemMove>, more: seq<SystemMove>, id: string) returns (rest: seq<Move>)
    requires IsHash(n.k.sha256) && SystemMovesOk(moves) && SystemMovesOk(more)
    ensures LaneOf(SystemRun(n, moves + more), id) == Onward(WorldOf(n, id), LaneOf(SystemRun(n, moves), id), rest)
    ensures Share(more, id, rest) && MovesOk(rest)
    ensures SystemRun(n, moves).clustered ==> SystemRun(n, moves + more).clustered && AllClustered(rest)
    ensures rest == [] ==> LaneOf(SystemRun(n, moves + more), id) == LaneOf(SystemRun(n, moves), id)
  {
    hide *;
    SameWorld(n, id);
    MovesJoin(moves, more);
    LanesAreIndependent(n, moves, id);
    LanesAreIndependent(n, moves + more, id);
    rest := ProjectedExtends(n, moves, more, id);
    RunOnward(WorldOf(n, id), Projected(n, moves, id), rest);
    OnwardFirst(WorldOf(n, id), LaneOf(SystemRun(n, moves), id), rest);
    ShareOk(more, id, rest);
  }

  lemma ShareOk(more: seq<SystemMove>, id: string, rest: seq<Move>)
    requires Share(more, id, rest)
    ensures MovesOk(rest)
  {
    hide MoveOk;
  }

  lemma SystemInv(n: Nodes, moves: seq<SystemMove>, id: string)
    requires WorldOk(WorldOf(n, id)) && SystemMovesOk(moves)
    ensures LaneInv(WorldOf(n, id), LaneOf(SystemRun(n, moves), id))
  {
    hide *;
    SameWorld(n, id);
    LanesAreIndependent(n, moves, id);
    RunInv(WorldOf(n, id), Projected(n, moves, id));
  }

  // ---- the flag and the pins ----

  /** A joiner that has pinned keeps its pin. */
  lemma JoinerPinStays(w: World, lane: Lane, m: Move)
    requires WorldOk(w) && LaneInv(w, lane) && lane.joinerPinned.Some?
    ensures Advance(w, lane, m).joinerPinned == lane.joinerPinned
  {
    hide TextLaws, KeyLaws, InfoLaws, PinFacts, InviterHandles, SubmitResult, SubmitStart, JoinerHandles, InviteResult;
    hide InviteStage, SubmitStage;
    match m.action {
      case StartSubmit(pin) => StartPinsNothing(w, lane, pin);
      case PostSubmit(_) => EndedPosts(w, lane, m);
      case _ =>
    }
  }

  ghost predicate SomePinned(s: System) {
    exists id :: id in s.lanes && s.lanes[id].joinerPinned.Some?
  }

  ghost predicate AllNamed(n: Nodes, moves: seq<SystemMove>) {
    forall i :: 0 <= i < |moves| ==> WorldOk(WorldOf(n, moves[i].id))
  }

  ghost predicate AllWritten(moves: seq<SystemMove>) {
    forall i :: 0 <= i < |moves| ==> moves[i].written
  }

  /** The flag is up only when some invite has been pinned, and then if every pin reaches the disk. */
  lemma {:induction false} FlagFollowsPins(n: Nodes, moves: seq<SystemMove>)
    requires IsHash(n.k.sha256) && SystemMovesOk(moves) && AllNamed(n, moves)
    ensures SystemRun(n, moves).clustered ==> SomePinned(SystemRun(n, moves))
    ensures AllWritten(moves) && SomePinned(SystemRun(n, moves)) ==> SystemRun(n, moves).clustered
  {
    if |moves| > 0 {
      hide MoveOk, WorldOk, Advance, LaneInv, SystemMovesOk, SomePinned;
      var last := |moves| - 1;
      FlagFollowsPins(n, moves[..last]);
      SystemInv(n, moves[..last], moves[last].id);
      PinRaisesFlag(n, SystemRun(n, moves[..last]), moves[last]);
    }
  }

  lemma PinRaisesFlag(n: Nodes, s: System, m: SystemMove)
    requires WorldOk(WorldOf(n, m.id)) && LaneInv(WorldOf(n, m.id), LaneOf(s, m.id))
    ensures (s.clustered ==> SomePinned(s)) ==> (Next(n, s, m).clustered ==> SomePinned(Next(n, s, m)))
    ensures m.written && (SomePinned(s) ==> s.clustered) ==> (SomePinned(Next(n, s, m)) ==> Next(n, s, m).clustered)
  {
    var lane, move := LaneOf(s, m.id), m.move.(clustered := s.clustered);
    if lane.joinerPinned.Some? {
      JoinerPinStays(WorldOf(n, m.id), lane, move);
    }
    hide Advance, WorldOk, LaneInv;
    var next := Next(n, s, m);
    if SomePinned(s) {
      var id :| id in s.lanes && s.lanes[id].joinerPinned.Some?;
      assert id in next.lanes && next.lanes[id].joinerPinned.Some?;
    } else if next.clustered && !s.clustered {
      assert m.id in next.lanes && next.lanes[m.id].joinerPinned.Some?;
    }
  }

  // ---- which invites can still pin ----

  function Lifted(id: string, moves: seq<Move>): seq<SystemMove> {
    seq(|moves|, i requires 0 <= i < |moves| => SystemMove(id, moves[i], true))
  }

  lemma LiftedOk(id: string, moves: seq<Move>)
    requires MovesOk(moves)
    ensures SystemMovesOk(Lifted(id, moves)) && AllWritten(Lifted(id, moves))
    ensures forall i :: 0 <= i < |Lifted(id, moves)| ==> Lifted(id, moves)[i].id == id
  {
  }

  /** The lane of the lifted moves makes them as they were, but for the flags that they meet. */
  lemma LiftedShare(id: string, moves: seq<Move>, rest: seq<Move>)
    requires Share(Lifted(id, moves), id, rest)
    ensures |rest| == |moves| && forall i :: 0 <= i < |moves| ==> rest[i] == moves[i].(clustered := rest[i].clustered)
    ensures AllClustered(moves) && AllClustered(rest) ==> rest == moves
  {
    hide MovesOk;
    var lifted := Lifted(id, moves);
    assert forall i :: 0 <= i < |lifted| ==> lifted[i].id == id && lifted[i].move == moves[i];
  }

  ghost predicate LaterPins(n: Nodes, moves: seq<SystemMove>, id: string)
    requires IsHash(n.k.sha256)
  {
    exists more :: SystemMovesOk(more) && LaneOf(SystemRun(n, moves + more), id).joinerPinned.Some?
  }

  /**
   * Once the joiner is clustered, an invite that it has not pinned can still come to be pinned if and only if
   * it is under way, with no wrong PIN entered: its first post was handled before the flag rose.
   */
  lemma LaterPinsExactly(n: Nodes, moves: seq<SystemMove>, id: string)
    requires WorldOk(WorldOf(n, id)) && BothSound(WorldOf(n, id)) && SystemMovesOk(moves)
    requires SystemRun(n, moves).clustered && LaneOf(SystemRun(n, moves), id).joinerPinned.None?
    requires var lane := LaneOf(SystemRun(n, moves), id); NoNoobIdCollision(n.k, lane.minted, lane.fed)
    ensures LaterPins(n, moves, id) <==> CanPin(WorldOf(n, id), LaneOf(SystemRun(n, moves), id))
  {
    SameWorld(n, id);
    hide WorldOk, BothSound, SystemMovesOk, NoNoobIdCollision, LaneOf, CanPin, MovesOk, AllClustered, Onward;
    hide SystemRun, Lifted, Share;
    var w, lane := WorldOf(n, id), LaneOf(SystemRun(n, moves), id);
    SystemInv(n, moves, id);
    StillPinsExactly(w, lane);
    if LaterPins(n, moves, id) {
      var more :| SystemMovesOk(more) && LaneOf(SystemRun(n, moves + more), id).joinerPinned.Some?;
      var rest := LaneGoesOn(n, moves, more, id);
    }
    if CanPin(w, lane) {
      var own :| MovesOk(own) && AllClustered(own) && Onward(w, lane, own).joinerPinned.Some?;
      LiftedOk(id, own);
      var rest := LaneGoesOn(n, moves, Lifted(id, own), id);
      LiftedShare(id, own, rest);
    }
  }

  /** And neither side of an invite that is not under way pins anything any more. */
  lemma FrozenLanes(n: Nodes, moves: seq<SystemMove>, more: seq<SystemMove>, id: string)
    requires WorldOk(WorldOf(n, id)) && SystemMovesOk(moves) && SystemMovesOk(more)
    requires SystemRun(n, moves).clustered && !UnderWay(WorldOf(n, id), LaneOf(SystemRun(n, moves), id))
    ensures var before, after := LaneOf(SystemRun(n, moves), id), LaneOf(SystemRun(n, moves + more), id);
      after.joinerPinned == before.joinerPinned && after.inviterPinned == before.inviterPinned
  {
    hide *;
    SameWorld(n, id);
    SystemInv(n, moves, id);
    var rest := LaneGoesOn(n, moves, more, id);
    NotUnderWayStays(WorldOf(n, id), LaneOf(SystemRun(n, moves), id), rest);
  }

  // ---- two invites that both pin ----

  /** An invite is started and its first post delivered. */
  function Opening(id: string): seq<SystemMove> {
    Lifted(id, MovesFor([StartInvite, PostInvite(Delivered, "000000")], false))
  }

  lemma OpeningOk(id: string)
    ensures SystemMovesOk(Opening(id)) && |Opening(id)| == 2 && AllWritten(Opening(id))
    ensures Opening(id)[0].id == Opening(id)[1].id == id
    ensures Opening(id)[0].move.action == StartInvite && Opening(id)[1].move.action == PostInvite(Delivered, "000000")
    ensures !Opening(id)[0].move.clustered && !Opening(id)[1].move.clustered && MoveOk(Opening(id)[1].move)
  {
  }

  /** The invite is past its first post, with nothing pinned. */
  ghost predicate Begun(n: Nodes, s: System, id: string)
    requires IsHash(n.k.sha256)
  {
    var lane := LaneOf(s, id);
    && Inviting(WorldOf(n, id), lane) && lane.invite.Some? && lane.joinerSlot.joiner.Some? && !s.clustered
  }

  lemma FirstPosted(w: World, m: Move, second: Move)
    requires WorldOk(w) && MoveOk(second) && m.action == StartInvite && second.action.PostInvite?
    requires second.action.delivery.Delivered? && !second.clustered
    ensures var lane := Advance(w, Advance(w, NEW_LANE, m), second);
      Inviting(w, lane) && lane.invite.Some? && lane.joinerSlot.joiner.Some?
    ensures Advance(w, NEW_LANE, m).joinerPinned.None? && Advance(w, Advance(w, NEW_LANE, m), second).joinerPinned.None?
  {
    var lane := Advance(w, NEW_LANE, m);
    FirstPost(w, lane, second);
    hide TextLaws, KeyLaws, InfoLaws, InviteMove, Offered;
  }

  /** Two moves of one lane that pin nothing leave the flag and the other lanes alone. */
  lemma TwoMoves(n: Nodes, moves: seq<SystemMove>, a: SystemMove, b: SystemMove)
    requires IsHash(n.k.sha256) && a.id == b.id && !SystemRun(n, moves).clustered
    requires !a.move.clustered && !b.move.clustered
    requires var w, lane := WorldOf(n, a.id), LaneOf(SystemRun(n, moves), a.id);
      Advance(w, lane, a.move).joinerPinned.None? && Advance(w, Advance(w, lane, a.move), b.move).joinerPinned.None?
    ensures var w, before, after := WorldOf(n, a.id), SystemRun(n, moves), SystemRun(n, moves + [a, b]);
      && !after.clustered && LaneOf(after, a.id) == Advance(w, Advance(w, LaneOf(before, a.id), a.move), b.move)
      && forall id :: id != a.id ==> LaneOf(after, id) == LaneOf(before, id)
  {
    hide Advance;
    assert (moves + [a, b])[..|moves| + 1] == moves + [a] && (moves + [a])[..|moves|] == moves;
    assert a.move.(clustered := false) == a.move && b.move.(clustered := false) == b.move;
  }

  lemma Begins(n: Nodes, moves: seq<SystemMove>, id: string)
    requires WorldOk(WorldOf(n, id)) && LaneOf(SystemRun(n, moves), id) == NEW_LANE && !SystemRun(n, moves).clustered
    ensures var before, after := SystemRun(n, moves), SystemRun(n, moves + Opening(id));
      && Begun(n, after, id) && !after.clustered
      && forall other :: other != id ==> LaneOf(after, other) == LaneOf(before, other)
  {
    hide *;
    SameWorld(n, id);
    OpeningOk(id);
    var opening := Opening(id);
    FirstPosted(WorldOf(n, id), opening[0].move, opening[1].move);
    TwoMoves(n, moves, opening[0], opening[1]);
    assert opening == [opening[0], opening[1]];
    IsBegun(n, SystemRun(n, moves + opening), id);
  }

  lemma IsBegun(n: Nodes, s: System, id: string)
    requires IsHash(n.k.sha256)
    ensures Begun(n, s, id) <==>
              && Inviting(WorldOf(n, id), LaneOf(s, id))
              && LaneOf(s, id).invite.Some? && LaneOf(s, id).joinerSlot.joiner.Some? && !s.clustered
  {
    hide Inviting;
  }

  lemma BegunCanPin(n: Nodes, s: System, id: string)
    requires IsHash(n.k.sha256) && Begun(n, s, id)
    ensures var w, lane := WorldOf(n, id), LaneOf(s, id);
      && LaneInv(w, lane) && UnderWay(w, lane) && CanPin(w, lane) && !Submitting(w, lane)
      && lane.joinerPinned.None? && NoNoobIdCollision(n.k, lane.minted, lane.fed)
  {
    hide InviteStage, SubmitStage, Ready, PinNoobId;
  }

  /** A begun invite completes. */
  lemma Completes(n: Nodes, moves: seq<SystemMove>, id: string) returns (more: seq<SystemMove>)
    requires WorldOk(WorldOf(n, id)) && BothSound(WorldOf(n, id)) && SystemMovesOk(moves)
    requires IsHash(n.k.sha256) && Begun(n, SystemRun(n, moves), id)
    ensures SystemMovesOk(more) && AllWritten(more) && forall i :: 0 <= i < |more| ==> more[i].id == id
    ensures LaneOf(SystemRun(n, moves + more), id).joinerPinned.Some?
  {
    hide *;
    SameWorld(n, id);
    var w, lane, pin := WorldOf(n, id), LaneOf(SystemRun(n, moves), id), "000000";
    SixZeros();
    BegunCanPin(n, SystemRun(n, moves), id);
    var own := MovesFor(Rest(lane, pin), false);
    MovesForAct(w, lane, pin, false);
    ActingOk(own, Rest(lane, pin));
    more := Lifted(id, own);
    LiftedOk(id, own);
    var rest := LaneGoesOn(n, moves, more, id);
    LiftedShare(id, own, rest);
    RestActs(own, rest, Rest(lane, pin));
    UnderWayPins(w, lane, pin, rest);
  }

  lemma SixZeros()
    ensures IsValidPin("000000")
  {
  }

  lemma ActingOk(moves: seq<Move>, actions: seq<Action>)
    requires Acting(moves, actions)
    ensures MovesOk(moves)
  {
  }

  lemma RestActs(moves: seq<Move>, rest: seq<Move>, actions: seq<Action>)
    requires Acting(moves, actions) && |rest| == |moves| && MovesOk(rest)
    requires forall i :: 0 <= i < |moves| ==> rest[i] == moves[i].(clustered := rest[i].clustered)
    ensures Acting(rest, actions)
  {
    hide MoveOk;
  }

  /**
   * Two invites that are both begun before either is paired: the node pairs with the first, is clustered, and
   * still pairs with the second.
   */
  lemma TwoInvitesPin(n: Nodes, a: string, b: string) returns (moves: seq<SystemMove>)
    requires WorldOk(WorldOf(n, a)) && BothSound(WorldOf(n, a))
    requires WorldOk(WorldOf(n, b)) && BothSound(WorldOf(n, b)) && a != b
    ensures IsHash(n.k.sha256) && SystemMovesOk(moves) && SystemRun(n, moves).clustered
    ensures LaneOf(SystemRun(n, moves), a).joinerPinned.Some? && LaneOf(SystemRun(n, moves), b).joinerPinned.None?
    ensures LaterPins(n, moves, b)
  {
    hide *;
    SameWorld(n, a);
    SameWorld(n, b);
    OpeningOk(a);
    OpeningOk(b);
    NothingRun(n, a);
    NothingRun(n, b);
    Begins(n, [], a);
    assert [] + Opening(a) == Opening(a);
    Begins(n, Opening(a), b);
    var begun := Opening(a) + Opening(b);
    MovesJoin(Opening(a), Opening(b));
    IsBegun(n, SystemRun(n, Opening(a)), a);
    IsBegun(n, SystemRun(n, begun), a);
    var more := Completes(n, begun, a);
    moves := begun + more;
    MovesJoin(begun, more);
    NamedAndWritten(n, a, b, more);
    FlagFollowsPins(n, moves);
    IsPinned(SystemRun(n, moves), a);
    var rest := LaneGoesOn(n, begun, more, b);
    NoneOfIts(more, a, b, rest);
    BegunCanPin(n, SystemRun(n, begun), b);
    LaterPinsExactly(n, moves, b);
  }

  lemma NothingRun(n: Nodes, id: string)
    requires IsHash(n.k.sha256)
    ensures LaneOf(SystemRun(n, []), id) == NEW_LANE && !SystemRun(n, []).clustered
  {
  }

  lemma NamedAndWritten(n: Nodes, a: string, b: string, more: seq<SystemMove>)
    requires WorldOk(WorldOf(n, a)) && WorldOk(WorldOf(n, b)) && AllWritten(more)
    requires forall i :: 0 <= i < |more| ==> more[i].id == a
    ensures AllNamed(n, Opening(a) + Opening(b) + more) && AllWritten(Opening(a) + Opening(b) + more)
  {
    OpeningOk(a);
    OpeningOk(b);
    hide WorldOk, Opening, MoveOk;
  }

  lemma IsPinned(s: System, id: string)
    requires LaneOf(s, id).joinerPinned.Some?
    ensures SomePinned(s)
  {
    assert id in s.lanes;
  }

  lemma NoneOfIts(more: seq<SystemMove>, id: string, other: string, rest: seq<Move>)
    requires Share(more, other, rest) && id != other && forall i :: 0 <= i < |more| ==> more[i].id == id
    ensures rest == []
  {
    hide MovesOk;
  }
}
