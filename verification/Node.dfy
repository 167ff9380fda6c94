/**
 * What a pairing node does for one invite id (crates/pair-cluster/src/node.rs): the answer to each inbound
 * request, and the iterations of the two drivers. A `Slot` is the part of the node's three maps that is
 * filed under one id; the class of `PairingNodes` is proved to act on the slot of the request's id alone.
 */
module Node {
  import opened Octets
  import opened Kdf
  import opened Primitives
  import opened Protocol
  import opened Pin
  import opened Info
  import opened Session

  // ---- envelopes and replies (crates/pair-cluster/src/wire.rs) ----

  const INITIAL := "initial"
  const COMPLETION := "completion"
  const CANCEL := "cancel"
  const DECLINE := "decline"
  const FAIL := "fail"
  const ACK := "ack"
  const EXPIRED := "expired"

  const INCORRECT_PIN := "incorrect-pin"
  const ALREADY_CLUSTERED := "already-clustered"

  datatype Envelope = Envelope(inviteId: string, phase: string, msg: Blob, rejected: bool, reason: string)

  function WithMsg(id: string, phase: string, msg: Blob): Envelope {
    Envelope(id, phase, msg, false, "")
  }

  function SignalEnvelope(id: string, phase: string, reason: string): Envelope {
    Envelope(id, phase, Empty, false, reason)
  }

  function RejectedEnvelope(reason: string): Envelope {
    Envelope("", "", Empty, true, reason)
  }

  const NO_ENVELOPE := Envelope("", "", Empty, false, "")

  datatype Reply = Reply(status: int, envelope: Envelope)

  /** What the HTTP client makes of a reply (crates/pair-cluster/src/http.rs): only a rejection survives a 409. */
  function Posted(r: Reply): Result<Envelope> {
    if r.status == 409 then (if r.envelope.rejected then Ok(r.envelope) else Err("pairing 409"))
    else if 200 <= r.status < 300 then Ok(r.envelope)
    else Err("pairing error status")
  }

  function FirstType(msg: Blob): Option<int> {
    match msg case Empty => None case Garbage(t) => t case Message(w) => w.type_
  }

  // ---- one id's part of the node ----

  datatype PendingInvite = PendingInvite(
    inviteId: string, fromNodeUuid: string, fromName: string, clusterId: string, clusterFriendlyName: string,
    inviterAddr: string)

  datatype Slot = Slot(joiner: Option<JoinerState>, inviter: Option<InviterState>, pending: Option<PendingInvite>)

  const EMPTY_SLOT := Slot(None, None, None)

  /** The slot afterwards, the reply unless the handler panicked, and the pairing to pin, if any. */
  datatype SlotStep = SlotStep(slot: Slot, reply: Option<Reply>, pinned: Option<Paired>)

  function PendingOf(id: string, info: PairingInfo): PendingInvite {
    PendingInvite(id, info.nodeUuid, info.name, info.clusterId, info.clusterFriendlyName, info.addr)
  }

  function InitialRequest(k: Primitives, info: string, slot: Slot, clustered: bool, env: Envelope, f: Fresh): SlotStep
    requires IsHash(k.sha256)
  {
    if slot.joiner.None? && FirstType(env.msg) != Some(1) then
      SlotStep(slot, Some(Reply(400, SignalEnvelope(env.inviteId, INITIAL, "invalid EAP-NOOB message"))), None)
    else if slot.joiner.None? && clustered then
      SlotStep(slot, Some(Reply(409, RejectedEnvelope(ALREADY_CLUSTERED))), None)
    else AnswerInitial(k, slot, if slot.joiner.Some? then slot.joiner.value else NewJoiner(info), env, f)
  }

  /** Let the session process the message. */
  function AnswerInitial(k: Primitives, slot: Slot, j: JoinerState, env: Envelope, f: Fresh): (step: SlotStep)
    requires IsHash(k.sha256)
    ensures step.pinned.None?
  {
    Answered(slot, JoinerOnInitial(k, j, env.msg, f), env)
  }

  /** An answer is filed: an error evicts the session, but leaves a pending invite behind. */
  function Answered(slot: Slot, r: JoinerInitial, env: Envelope): (step: SlotStep)
    ensures step.pinned.None?
  {
    match r.answer
    case Panicked => SlotStep(slot.(joiner := Some(r.j)), None, None)
    case Returned(Ok(msg)) =>
      var pending := if r.j.peer.state == Waiting && r.j.inviter.Some?
                     then Some(PendingOf(env.inviteId, r.j.inviter.value.info)) else slot.pending;
      SlotStep(slot.(joiner := Some(r.j), pending := pending),
               Some(Reply(200, WithMsg(env.inviteId, INITIAL, msg))), None)
    case Returned(Err(e)) =>
      SlotStep(slot.(joiner := None), Some(Reply(400, SignalEnvelope(env.inviteId, INITIAL, e))), None)
  }

  /** What was in the slot's joiner place before does not matter. */
  lemma AnswerReplacesJoiner(k: Primitives, slot: Slot, before: Option<JoinerState>, j: JoinerState, env: Envelope,
                             f: Fresh)
    requires IsHash(k.sha256)
    ensures AnswerInitial(k, slot.(joiner := before), j, env, f) == AnswerInitial(k, slot, j, env, f)
  {
    hide JoinerOnInitial;
  }

  function PairedOf(id: Option<PeerIdentity>, assoc: Option<Association>): Option<Paired> {
    if id.Some? && assoc.Some? then
      Some(Paired(id.value.info, id.value.certDer, assoc.value.kz, assoc.value.cryptosuitep))
    else None
  }

  function CompletionRequest(k: Primitives, slot: Slot, env: Envelope, f: Fresh): SlotStep
    requires IsHash(k.sha256)
  {
    if slot.inviter.None? then
      SlotStep(slot, Some(Reply(409, SignalEnvelope(env.inviteId, COMPLETION, "unknown or expired inviteId"))), None)
    else if env.msg.Empty? then
      SlotStep(slot, Some(Reply(200, WithMsg(env.inviteId, COMPLETION, Message(START)))), None)
    else
      var r := InviterOnCompletion(k, slot.inviter.value, env.msg, f);
      var slot' := slot.(inviter := Some(r.i));
      match r.answer
      case Panicked => SlotStep(slot', None, None)
      case Returned(Ok(step)) =>
        SlotStep(slot', Some(Reply(200, WithMsg(env.inviteId, COMPLETION, BlobOf(step.send)))),
                 if step.done && step.success then PairedOf(r.i.joiner, r.i.server.assoc) else None)
      case Returned(Err(e)) =>
        SlotStep(slot', Some(Reply(400, SignalEnvelope(env.inviteId, COMPLETION, e))), None)
  }

  function OnSignal(slot: Slot, env: Envelope): Slot {
    if env.phase == CANCEL then slot.(joiner := None, pending := None)
    else if env.phase == DECLINE || env.phase == FAIL || env.phase == EXPIRED then slot.(inviter := None)
    else slot
  }

  predicate IsSignal(phase: string) {
    phase == CANCEL || phase == DECLINE || phase == FAIL || phase == EXPIRED || phase == ACK
  }

  /** One inbound request, on the slot of its invite id. */
  function HandleSlot(k: Primitives, info: string, slot: Slot, clustered: bool, env: Envelope, f: Fresh): SlotStep
    requires IsHash(k.sha256)
  {
    if env.inviteId == "" then
      SlotStep(slot, Some(Reply(400, SignalEnvelope("", env.phase, "missing inviteId"))), None)
    else if env.phase == INITIAL then InitialRequest(k, info, slot, clustered, env, f)
    else if env.phase == COMPLETION then CompletionRequest(k, slot, env, f)
    else if IsSignal(env.phase) then SlotStep(OnSignal(slot, env), Some(Reply(200, NO_ENVELOPE)), None)
    else SlotStep(slot, Some(Reply(400, SignalEnvelope(env.inviteId, env.phase, "unknown phase"))), None)
  }

  // ---- create_invite: the inviter drives the Initial Exchange ----

  /** After one answered post: go on with a message, stop with a server at Waiting, or give up. */
  datatype InviteStep =
    | InviteContinue(i: InviterState, msg: Wire)
    | InviteReady(i: InviterState)
    | InviteFailed(reason: string)

  function InviteIter(k: Primitives, i: InviterState, resp: Envelope, f: Fresh): InviteStep
    requires IsHash(k.sha256)
  {
    if resp.rejected then InviteFailed("joiner rejected pairing: " + resp.reason)
    else
      var r := InviterOnInitial(k, i, resp.msg, f);
      match r.answer
      case Panicked => InviteFailed("panic")
      case Returned(step) =>
        if step.error.Some? then InviteFailed("initial exchange failed: " + step.error.value)
        else if step.done then
          (if r.i.server.state == Waiting then InviteReady(r.i)
           else InviteFailed("Initial ended in a state other than Waiting"))
        else if step.send.Some? then InviteContinue(r.i, step.send.value)
        else InviteFailed("inviter stalled in Initial")
  }

  /** What became of one post, and the random values of the step that follows it. */
  datatype Post = Post(reply: Option<Reply>, random: Fresh)

  function PostResult(p: Post): Result<Envelope> {
    match p.reply case Some(r) => Posted(r) case None => Err("transport failed")
  }

  /**
   * The session that `create_invite` files, if the posts' outcomes let it get there; running out of posts is a
   * failure.
   */
  function DriveInvite(k: Primitives, i: InviterState, pin: string, posts: seq<Post>): Result<InviterState>
    requires IsHash(k.sha256)
    decreases |posts|
  {
    if |posts| == 0 then Err("transport failed")
    else
      match PostResult(posts[0])
      case Err(e) => Err(e)
      case Ok(resp) =>
        match InviteIter(k, i, resp, posts[0].random)
        case InviteFailed(e) => Err(e)
        case InviteContinue(i', _) => DriveInvite(k, i', pin, posts[1..])
        case InviteReady(i') => InviterSetPin(k, i', pin)
  }

  // ---- submit_pin: the joiner drives the Completion Exchange ----

  /** Accept the PIN: the session exists, knows where the inviter is, and is at Waiting. */
  function SubmitBegin(k: Primitives, slot: Slot, pin: string): Result<JoinerState>
    requires IsHash(k.sha256)
  {
    if !IsValidPin(pin) then Err("pin must be six digits")
    else if slot.joiner.None? then Err("unknown or evicted inviteId")
    else if slot.joiner.value.inviter.None? || slot.joiner.value.inviter.value.info.addr == "" then
      Err("inviter address unknown")
    else JoinerFeedPin(k, slot.joiner.value, pin)
  }

  /** After one answered post: go on, pair, be refused (and say so to the inviter), or give up. */
  datatype SubmitStep =
    | SubmitContinue(j: JoinerState, msg: Wire)
    | SubmitPaired(j: JoinerState, paired: Paired)
    | SubmitRefused(j: JoinerState, authFailed: bool, errorCode: Option<int>)
    | SubmitStuck(j: JoinerState)

  function SubmitIter(k: Primitives, j: JoinerState, resp: Envelope, f: Fresh): SubmitStep
    requires IsHash(k.sha256)
  {
    var r := JoinerOnCompletion(k, j, resp.msg, f);
    match r.answer
    case Panicked => SubmitStuck(r.j)
    case Returned(step) =>
      if step.done then
        if step.success then
          (match PairedOf(r.j.inviter, r.j.peer.assoc)
           case Some(p) => SubmitPaired(r.j, p)
           case None => SubmitStuck(r.j))
        else SubmitRefused(r.j, step.authFailed, step.errorCode)
      else if step.send.Some? then SubmitContinue(r.j, step.send.value)
      else SubmitStuck(r.j)
  }

  function DriveSubmit(k: Primitives, j: JoinerState, posts: seq<Post>): SubmitStep
    requires IsHash(k.sha256)
    decreases |posts|
  {
    if |posts| == 0 then SubmitStuck(j)
    else
      match PostResult(posts[0])
      case Err(_) => SubmitStuck(j)
      case Ok(resp) =>
        match SubmitIter(k, j, resp, posts[0].random)
        case SubmitContinue(j', _) => DriveSubmit(k, j', posts[1..])
        case end => end
  }

  /** The slot that `submit_pin` leaves: cleared after a pairing or a refusal, kept when it gave up. */
  function SubmitSlot(slot: Slot, end: SubmitStep): Slot {
    match end
    case SubmitPaired(_, _) => slot.(joiner := None, pending := None)
    case SubmitRefused(_, _, _) => slot.(joiner := None, pending := None)
    case _ => slot.(joiner := Some(end.j))
  }

  // ---- a series of requests ----

  /** One request with the random values of its step and the clustered flag it met. */
  datatype Arrival = Arrival(env: Envelope, random: Fresh, clustered: bool)

  /** The slot of one id after the arrivals that carry this id, the others being skipped. */
  function SlotAfter(k: Primitives, info: string, slot: Slot, id: string, arrivals: seq<Arrival>): Slot
    requires IsHash(k.sha256)
  {
    if |arrivals| == 0 then slot
    else
      var before := SlotAfter(k, info, slot, id, arrivals[..|arrivals| - 1]);
      var a := arrivals[|arrivals| - 1];
      if a.env.inviteId == id then HandleSlot(k, info, before, a.clustered, a.env, a.random).slot else before
  }

  // ---- in full ----

  /** What survives the HTTP client: any reply of the 200s, and of those with 409 a rejection. */
  lemma PostedInFull(r: Reply)
    ensures Posted(r).Ok? <==> 200 <= r.status <= 299 || (r.status == 409 && r.envelope.rejected)
    ensures Posted(r).Ok? ==> Posted(r).value == r.envelope
  {
  }

  predicate SignalPhase(phase: string) {
    phase in {"cancel", "decline", "fail", "expired", "ack"}
  }

  /** A signal clears the joiner's side, the inviter's, or nothing, and is answered with 200 and nothing else. */
  lemma SignalsInFull(k: Primitives, info: string, slot: Slot, clustered: bool, env: Envelope, f: Fresh)
    requires IsHash(k.sha256) && env.inviteId != "" && SignalPhase(env.phase)
    ensures var step := HandleSlot(k, info, slot, clustered, env, f);
      && step.pinned.None? && step.reply == Some(Reply(200, Envelope("", "", Empty, false, "")))
      && step.slot == Slot(if env.phase == "cancel" then None else slot.joiner,
                           if env.phase in {"decline", "fail", "expired"} then None else slot.inviter,
                           if env.phase == "cancel" then None else slot.pending)
  {
    hide InitialRequest, CompletionRequest;
    PhasesDiffer(env.phase);
  }

  lemma PhasesDiffer(phase: string)
    ensures SignalPhase(phase) ==> phase != "initial" && phase != "completion"
    ensures "cancel" !in {"decline", "fail", "expired"}
  {
    assert "initial"[0] == 'i' && "completion"[1] == 'o';
    assert "cancel"[0] == 'c' && "cancel"[1] == 'a' && "decline"[0] == 'd' && "fail"[0] == 'f';
    assert "expired"[0] == 'e' && "ack"[0] == 'a';
  }

  /** The statuses of what is refused before any session sees it. */
  lemma RefusalsInFull(k: Primitives, info: string, slot: Slot, clustered: bool, env: Envelope, f: Fresh)
    requires IsHash(k.sha256)
    ensures var step := HandleSlot(k, info, slot, clustered, env, f);
      var first := match env.msg case Empty => None case Garbage(t) => t case Message(w) => w.type_;
      && (env.inviteId == "" ==> Refused(slot, step, 400, "", env.phase, false))
      && (env.inviteId != "" && env.phase == "initial" && slot.joiner.None? && first != Some(1) ==>
            Refused(slot, step, 400, env.inviteId, "initial", false))
      && (env.inviteId != "" && env.phase == "initial" && slot.joiner.None? && first == Some(1) && clustered ==>
            Refused(slot, step, 409, "", "", true) && step.reply.value.envelope.reason == "already-clustered")
      && (env.inviteId != "" && env.phase == "completion" && slot.inviter.None? ==>
            Refused(slot, step, 409, env.inviteId, "completion", false))
      && (env.inviteId != "" && env.phase !in {"initial", "completion"} && !SignalPhase(env.phase) ==>
            Refused(slot, step, 400, env.inviteId, env.phase, false))
  {
    hide AnswerInitial, InviterOnCompletion;
    assert "completion"[0] != "initial"[0];
  }

  /** A refusal: nothing changes, and the reply has no message. */
  predicate Refused(slot: Slot, step: SlotStep, status: int, id: string, phase: string, rejected: bool) {
    && step.slot == slot && step.pinned.None? && step.reply.Some? && step.reply.value.status == status
    && var e := step.reply.value.envelope;
       e.inviteId == id && e.phase == phase && e.msg.Empty? && e.rejected == rejected
  }

  /** The statuses of what a session answers: 200 with its message, 400 without one on its error, none if it panics. */
  lemma AnswersInFull(k: Primitives, info: string, slot: Slot, clustered: bool, env: Envelope, f: Fresh)
    requires IsHash(k.sha256) && env.inviteId != ""
    ensures env.phase == "initial" && slot.joiner.Some? ==>
              Answers(env.inviteId, "initial", HandleSlot(k, info, slot, clustered, env, f).reply,
                      match JoinerOnInitial(k, slot.joiner.value, env.msg, f).answer
                      case Panicked => None
                      case Returned(Ok(msg)) => Some(Some(msg))
                      case Returned(Err(_)) => Some(None))
    ensures env.phase == "completion" && slot.inviter.Some? && !env.msg.Empty? ==>
              Answers(env.inviteId, "completion", HandleSlot(k, info, slot, clustered, env, f).reply,
                      match InviterOnCompletion(k, slot.inviter.value, env.msg, f).answer
                      case Panicked => None
                      case Returned(Ok(step)) => Some(Some(if step.send.Some? then Message(step.send.value) else Empty))
                      case Returned(Err(_)) => Some(None))
    ensures env.phase == "completion" && slot.inviter.Some? && env.msg.Empty? ==>
              var step := HandleSlot(k, info, slot, clustered, env, f);
              && Answers(env.inviteId, "completion", step.reply, Some(Some(Message(NO_WIRE.(type_ := Some(1))))))
              && step.slot == slot && step.pinned.None?
  {
    hide JoinerOnInitial, InviterOnCompletion;
    assert "completion"[0] != "initial"[0];
  }

  /** The reply for an answer: none if there is none, 400 if it is an error, and otherwise 200 with the message. */
  predicate Answers(id: string, phase: string, reply: Option<Reply>, answer: Option<Option<Blob>>) {
    match answer
    case None => reply.None?
    case Some(None) =>
      && reply.Some? && reply.value.status == 400
      && var e := reply.value.envelope; e.inviteId == id && e.phase == phase && e.msg.Empty? && !e.rejected
    case Some(Some(msg)) =>
      && reply.Some? && reply.value.status == 200
      && reply.value.envelope == Envelope(id, phase, msg, false, "")
  }
}
