/**
 * Two nodes and any number of invites between them, in any interleaving. The lanes share one thing, the
 * joiner's clustered flag, which a pin sets; each lane is a run of its own.
 */
module LaneSystem {
  import opened Kdf
  import opened Primitives
  import opened Lanes
  import opened LaneSafety
  import opened LaneRuns

  /** The two nodes: how they compute and what they say of themselves. */
  datatype Nodes = Nodes(k: Primitives, inviterInfo: string, joinerInfo: string)

  function WorldOf(n: Nodes, id: string): World {
    World(n.k, id, n.inviterInfo, n.joinerInfo)
  }

  datatype System = System(lanes: map<string, Lane>, clustered: bool)

  /** A move of one lane; `written` tells whether a pin made in it reaches the disk. */
  datatype SystemMove = SystemMove(id: string, move: Move, written: bool)

  function LaneOf(s: System, id: string): Lane {
    if id in s.lanes then s.lanes[id] else NEW_LANE
  }

  function Next(n: Nodes, s: System, m: SystemMove): System
    requires IsHash(n.k.sha256)
  {
    var before := LaneOf(s, m.id);
    var after := Advance(WorldOf(n, m.id), before, m.move.(clustered := s.clustered));
    System(s.lanes[m.id := after], s.clustered || (m.written && before.joinerPinned.None? && after.joinerPinned.Some?))
  }

  function SystemRun(n: Nodes, moves: seq<SystemMove>): System
    requires IsHash(n.k.sha256)
  {
    if |moves| == 0 then System(map[], false) else Next(n, SystemRun(n, moves[..|moves| - 1]), moves[|moves| - 1])
  }

  /** The moves of one lane, with the flag that each of them met. */
  function Projected(n: Nodes, moves: seq<SystemMove>, id: string): seq<Move>
    requires IsHash(n.k.sha256)
  {
    if |moves| == 0 then []
    else
      var m, before := moves[|moves| - 1], moves[..|moves| - 1];
      Projected(n, before, id)
      + if m.id == id then [m.move.(clustered := SystemRun(n, before).clustered)] else []
  }

  ghost predicate SystemMovesOk(moves: seq<SystemMove>) {
    forall i :: 0 <= i < |moves| ==> MoveOk(moves[i].move)
  }

  /** Each lane of the system is a run of its own moves: nothing that happens to other invites matters to it. */
  lemma {:induction false} LanesAreIndependent(n: Nodes, moves: seq<SystemMove>, id: string)
    requires IsHash(n.k.sha256) && SystemMovesOk(moves)
    ensures LaneOf(SystemRun(n, moves), id) == Run(WorldOf(n, id), Projected(n, moves, id))
    ensures MovesOk(Projected(n, moves, id))
  {
    if |moves| > 0 {
      hide Advance, MoveOk;
      var m, before := moves[|moves| - 1], moves[..|moves| - 1];
      LanesAreIndependent(n, before, id);
      var projected := Projected(n, before, id);
      if m.id == id {
        var move := m.move.(clustered := SystemRun(n, before).clustered);
        assert (projected + [move])[..|projected|] == projected;
      } else {
        assert projected + [] == projected;
      }
    }
  }

  /** So whatever is lost and however the invites interleave, pins agree on every one of them. */
  lemma SystemSafety(n: Nodes, moves: seq<SystemMove>, id: string)
    requires WorldOk(WorldOf(n, id)) && SystemMovesOk(moves)
    requires var lane := LaneOf(SystemRun(n, moves), id); NoNoobIdCollision(n.k, lane.minted, lane.fed)
    ensures var lane := LaneOf(SystemRun(n, moves), id);
      && (lane.joinerPinned.Some? ==>
            lane.inviterPinned.Some? && lane.joinerPinned.value.kz == lane.inviterPinned.value.kz
            && PinnedFrom(n.k, n.inviterInfo, lane.joinerPinned.value))
      && (lane.inviterPinned.Some? ==>
            lane.minted.Some? && lane.fed == lane.minted && PinnedFrom(n.k, n.joinerInfo, lane.inviterPinned.value))
      && (lane.fed != lane.minted ==> NothingPinned(lane) && NobodyRegistered(lane))
  {
    hide TextLaws, KeyLaws, InfoLaws, Run, SystemRun, PinnedFrom, NoNoobIdCollision, NothingPinned;
    hide NobodyRegistered, MovesOk, SystemMovesOk;
    LanesAreIndependent(n, moves, id);
    RunSafety(WorldOf(n, id), Projected(n, moves, id));
  }
}
