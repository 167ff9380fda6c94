/**
 * One inviter node and one joiner node working on one invite id, over a network that may lose any post or
 * any reply. A move is one driver iteration or one user action, as in crates/pair-cluster/src/node.rs.
 */
module Lanes {
  import opened Octets
  import opened Kdf
  import opened Primitives
  import opened Protocol
  import opened Pin
  import opened Info
  import opened Session
  import opened Node

  /** The invite id and the PairingInfo texts that the two nodes embed. */
  datatype World = World(k: Primitives, id: string, inviterInfo: string, joinerInfo: string)

  /** `create_invite` on its way: the session and the message to post next. */
  datatype Invite = Invite(i: InviterState, msg: Wire)

  /** `submit_pin` on its way: what to post next. */
  datatype Submit = Kickoff | Carry(msg: Wire) | Notice(phase: string, reason: string)

  datatype Lane = Lane(
    started: bool, invite: Option<Invite>, submit: Option<Submit>,
    inviterSlot: Slot, joinerSlot: Slot,
    // what has happened so far
    minted: Option<string>, fed: Option<string>, inviterPinned: Option<Paired>, joinerPinned: Option<Paired>,
    refused: Option<(bool, Option<int>)>, last: Option<JoinerState>)

  const NEW_LANE := Lane(false, None, None, EMPTY_SLOT, EMPTY_SLOT, None, None, None, None, None, None)

  datatype Delivery = RequestLost | ReplyLost | Delivered

  datatype Action =
    | StartInvite
    | PostInvite(delivery: Delivery, pin: string)
    | StartSubmit(pin: string)
    | PostSubmit(delivery: Delivery)

  /** An action with the joiner's clustered flag and the random values of the machines that take part. */
  datatype Move = Move(action: Action, clustered: bool, atJoiner: Fresh, atInviter: Fresh)

  /** Nonces and ids have their sizes, and minted PINs six digits. */
  predicate MoveOk(m: Move) {
    FreshOk(m.atJoiner) && FreshOk(m.atInviter) && (m.action.PostInvite? ==> IsValidPin(m.action.pin))
  }

  // ---- create_invite ----

  /** The joiner's handling of the invite's next message. */
  function JoinerHandles(w: World, lane: Lane, msg: Wire, m: Move): SlotStep
    requires IsHash(w.k.sha256)
  {
    HandleSlot(w.k, w.joinerInfo, lane.joinerSlot, m.clustered, WithMsg(w.id, INITIAL, Message(msg)), m.atJoiner)
  }

  /** The inviter's handling of what came back: go on, file the session with its PIN, or give up. */
  function InviteResult(w: World, lane: Lane, i: InviterState, reply: Option<Reply>, pin: string, f: Fresh): Lane
    requires IsHash(w.k.sha256)
  {
    var stopped := lane.(invite := None);
    match PostResult(Post(reply, f))
    case Err(_) => stopped
    case Ok(resp) =>
      match InviteIter(w.k, i, resp, f)
      case InviteFailed(_) => stopped
      case InviteContinue(i', msg) => lane.(invite := Some(Invite(i', msg)))
      case InviteReady(i') =>
        (match InviterSetPin(w.k, i', pin)
         case Ok(filed) => stopped.(inviterSlot := lane.inviterSlot.(inviter := Some(filed)), minted := Some(pin))
         case Err(_) => stopped)
  }

  function InviteMove(w: World, lane: Lane, m: Move): Lane
    requires IsHash(w.k.sha256) && m.action.PostInvite?
  {
    match lane.invite
    case None => lane
    case Some(inv) =>
      if m.action.delivery.RequestLost? then lane.(invite := None)
      else
        var step := JoinerHandles(w, lane, inv.msg, m);
        var handled := lane.(joinerSlot := step.slot);
        if m.action.delivery.ReplyLost? then handled.(invite := None)
        else InviteResult(w, handled, inv.i, step.reply, m.action.pin, m.atInviter)
  }

  // ---- submit_pin ----

  function SubmitStart(w: World, lane: Lane, pin: string): Lane
    requires IsHash(w.k.sha256)
  {
    match SubmitBegin(w.k, lane.joinerSlot, pin)
    case Ok(j) => lane.(joinerSlot := lane.joinerSlot.(joiner := Some(j)), submit := Some(Kickoff), fed := Some(pin))
    case Err(_) => lane
  }

  function SubmitEnvelope(w: World, s: Submit): Envelope {
    match s
    case Kickoff => SignalEnvelope(w.id, COMPLETION, "")
    case Carry(msg) => WithMsg(w.id, COMPLETION, Message(msg))
    case Notice(phase, reason) => SignalEnvelope(w.id, phase, reason)
  }

  function InviterHandles(w: World, lane: Lane, s: Submit, m: Move): SlotStep
    requires IsHash(w.k.sha256)
  {
    HandleSlot(w.k, w.inviterInfo, lane.inviterSlot, false, SubmitEnvelope(w, s), m.atInviter)
  }

  /** The joiner's handling of what came back: go on, pin, tear down after a refusal, or give up. */
  function SubmitResult(w: World, lane: Lane, s: Submit, reply: Option<Reply>, f: Fresh): Lane
    requires IsHash(w.k.sha256)
  {
    var stopped := lane.(submit := None);
    if s.Notice? || lane.joinerSlot.joiner.None? then stopped
    else
      match PostResult(Post(reply, f))
      case Err(_) => stopped
      case Ok(resp) =>
        var end := SubmitIter(w.k, lane.joinerSlot.joiner.value, resp, f);
        var after := lane.(joinerSlot := SubmitSlot(lane.joinerSlot, end));
        match end
        case SubmitContinue(_, msg) => after.(submit := Some(Carry(msg)))
        case SubmitPaired(j, p) => after.(submit := Some(Notice(ACK, "")), joinerPinned := Some(p), last := Some(j))
        case SubmitRefused(j, auth, code) =>
          after.(submit := Some(Notice(FAIL, if auth then INCORRECT_PIN else "")), refused := Some((auth, code)),
                 last := Some(j))
        case SubmitStuck(_) => after.(submit := None)
  }

  function SubmitMove(w: World, lane: Lane, m: Move): Lane
    requires IsHash(w.k.sha256) && m.action.PostSubmit?
  {
    match lane.submit
    case None => lane
    case Some(s) =>
      if m.action.delivery.RequestLost? then lane.(submit := None)
      else
        var step := InviterHandles(w, lane, s, m);
        var handled := lane.(inviterSlot := step.slot,
                             inviterPinned := if step.pinned.Some? then step.pinned else lane.inviterPinned);
        if m.action.delivery.ReplyLost? then handled.(submit := None)
        else SubmitResult(w, handled, s, step.reply, m.atJoiner)
  }

  // ---- runs ----

  /** Invite ids are fresh, so a lane is started once. */
  function Advance(w: World, lane: Lane, m: Move): Lane
    requires IsHash(w.k.sha256)
  {
    match m.action
    case StartInvite =>
      if lane.started then lane else lane.(started := true, invite := Some(Invite(NewInviter(w.inviterInfo), START)))
    case PostInvite(_, _) => InviteMove(w, lane, m)
    case StartSubmit(pin) => SubmitStart(w, lane, pin)
    case PostSubmit(_) => SubmitMove(w, lane, m)
  }

  function Run(w: World, moves: seq<Move>): Lane
    requires IsHash(w.k.sha256)
  {
    if |moves| == 0 then NEW_LANE else Advance(w, Run(w, moves[..|moves| - 1]), moves[|moves| - 1])
  }

  // ---- the moves are the iterations of the drivers ----

  /** What the inviter's driver gets from its post in this move. */
  function InvitePost(w: World, lane: Lane, m: Move): Post
    requires IsHash(w.k.sha256) && m.action.PostInvite? && lane.invite.Some?
  {
    Post(if m.action.delivery.Delivered? then JoinerHandles(w, lane, lane.invite.value.msg, m).reply else None,
         m.atInviter)
  }

  /** A move of the inviter is one iteration of `create_invite`: it goes on, or files what the driver returns. */
  lemma InviteMoveIsIteration(w: World, lane: Lane, m: Move, rest: seq<Post>)
    requires IsHash(w.k.sha256) && m.action.PostInvite? && lane.invite.Some?
    ensures var next := InviteMove(w, lane, m);
      var driven := DriveInvite(w.k, lane.invite.value.i, m.action.pin, [InvitePost(w, lane, m)] + rest);
      if next.invite.Some? then driven == DriveInvite(w.k, next.invite.value.i, m.action.pin, rest)
      else if driven.Ok? then
        next.minted == Some(m.action.pin) && next.inviterSlot == lane.inviterSlot.(inviter := Some(driven.value))
      else next.minted == lane.minted && next.inviterSlot == lane.inviterSlot
  {
    hide HandleSlot, InviteIter, InviterSetPin, Posted;
    var posts := [InvitePost(w, lane, m)] + rest;
    assert posts[1..] == rest;
  }

  function SubmitPost(w: World, lane: Lane, m: Move): Post
    requires IsHash(w.k.sha256) && m.action.PostSubmit? && lane.submit.Some?
  {
    Post(if m.action.delivery.Delivered? then InviterHandles(w, lane, lane.submit.value, m).reply else None, m.atJoiner)
  }

  /** A move of the joiner is one iteration of `submit_pin`: it goes on, or leaves the slot and the pin of its end. */
  lemma SubmitMoveIsIteration(w: World, lane: Lane, m: Move, rest: seq<Post>)
    requires IsHash(w.k.sha256) && m.action.PostSubmit? && lane.submit.Some? && !lane.submit.value.Notice?
    requires lane.joinerSlot.joiner.Some?
    ensures var next := SubmitMove(w, lane, m);
      var end := DriveSubmit(w.k, lane.joinerSlot.joiner.value, [SubmitPost(w, lane, m)] + rest);
      if next.submit.Some? && next.submit.value.Carry? then
        next.joinerSlot.joiner.Some? && end == DriveSubmit(w.k, next.joinerSlot.joiner.value, rest)
      else
        && next.joinerSlot == SubmitSlot(lane.joinerSlot, end)
        && next.joinerPinned == (if end.SubmitPaired? then Some(end.paired) else lane.joinerPinned)
        && next.refused == (if end.SubmitRefused? then Some((end.authFailed, end.errorCode)) else lane.refused)
  {
    hide HandleSlot, SubmitIter, Posted;
    var posts := [SubmitPost(w, lane, m)] + rest;
    assert posts[1..] == rest;
  }
}
