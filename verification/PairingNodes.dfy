/** The pairing endpoint of crates/pair-cluster/src/node.rs: three maps of shared sessions, updated in place. */
module PairingNodes {
  import opened Octets
  import opened Kdf
  import opened Primitives
  import opened Protocol
  import opened Pin
  import opened Info
  import opened Session
  import opened Node
  import opened TrustSink
  import opened ClusterDir

  /** A request as it comes in, and what becomes of the write if it pairs the node. */
  datatype Incoming = Incoming(env: Envelope, random: Fresh, writing: Writing)

  /** What the last of these arrivals makes a node pin, whose slots were `slots` before the first. */
  function PinnedLast(k: Primitives, info: string, slots: imap<string, Slot>, arrivals: seq<Arrival>): Option<Paired>
    requires IsHash(k.sha256) && |arrivals| > 0 && forall id :: id in slots
  {
    var last := arrivals[|arrivals| - 1];
    var id := last.env.inviteId;
    HandleSlot(k, info, SlotAfter(k, info, slots[id], id, arrivals[..|arrivals| - 1]), last.clustered, last.env,
               last.random).pinned
  }

  /**
   * What the node trusts after these arrivals: each of the ids' own pairings is added, in the order in which they
   * came.
   */
  function TrustAfter(k: Primitives, info: string, sink: ClusterTrustSink, slots: imap<string, Slot>, trust: Trust,
                      writings: seq<Writing>, arrivals: seq<Arrival>): Trust
    requires IsHash(k.sha256) && |arrivals| <= |writings| && forall id :: id in slots
  {
    if |arrivals| == 0 then trust
    else
      var n := |arrivals| - 1;
      sink.After(k, TrustAfter(k, info, sink, slots, trust, writings, arrivals[..n]),
                 PinnedLast(k, info, slots, arrivals), writings[n])
  }

  function Writings(requests: seq<Incoming>): (w: seq<Writing>)
    ensures |w| == |requests|
  {
    seq(|requests|, i requires 0 <= i < |requests| => requests[i].writing)
  }

  lemma WritingsAt(requests: seq<Incoming>, i: nat)
    requires i < |requests|
    ensures Writings(requests)[i] == requests[i].writing
  {
  }

  /** The arrivals are the first requests, each with the clustered flag that those before it made. */
  ghost predicate ArrivalsOf(k: Primitives, info: string, sink: ClusterTrustSink, slots: imap<string, Slot>,
                             trust: Trust,
                             requests: seq<Incoming>, arrivals: seq<Arrival>)
    requires IsHash(k.sha256) && forall id :: id in slots
  {
    && |arrivals| <= |requests|
    && forall i :: 0 <= i < |arrivals| ==>
         arrivals[i] == Arrival(requests[i].env, requests[i].random,
                                TrustAfter(k, info, sink, slots, trust, Writings(requests), arrivals[..i]).clustered)
  }

  lemma OneMoreArrived(k: Primitives, info: string, sink: ClusterTrustSink, slots: imap<string, Slot>, trust: Trust,
                       requests: seq<Incoming>, arrivals: seq<Arrival>, a: Arrival)
    requires IsHash(k.sha256) && forall id :: id in slots
    requires ArrivalsOf(k, info, sink, slots, trust, requests, arrivals) && |arrivals| < |requests|
    requires a == Arrival(requests[|arrivals|].env, requests[|arrivals|].random,
                          TrustAfter(k, info, sink, slots, trust, Writings(requests), arrivals).clustered)
    ensures ArrivalsOf(k, info, sink, slots, trust, requests, arrivals + [a])
  {
    hide TrustAfter, Writings;
    forall i | 0 <= i <= |arrivals|
      ensures (arrivals + [a])[..i] == arrivals[..i]
    {
    }
    assert arrivals[..|arrivals|] == arrivals;
  }

  /** One more arrival changes the slot of its id, and what the node trusts by what it pins. */
  lemma OneMore(k: Primitives, info: string, sink: ClusterTrustSink, slots: imap<string, Slot>, trust: Trust,
                writings: seq<Writing>, arrivals: seq<Arrival>, a: Arrival)
    requires IsHash(k.sha256) && |arrivals| < |writings| && forall id :: id in slots
    ensures var next, own := arrivals + [a], a.env.inviteId;
      var step := HandleSlot(k, info, SlotAfter(k, info, slots[own], own, arrivals), a.clustered, a.env, a.random);
      && (forall id :: SlotAfter(k, info, slots[id], id, next) ==
            if id == own then step.slot else SlotAfter(k, info, slots[id], id, arrivals))
      && TrustAfter(k, info, sink, slots, trust, writings, next) ==
           sink.After(k, TrustAfter(k, info, sink, slots, trust, writings, arrivals), step.pinned, writings[|arrivals|])
  {
    hide HandleSlot, ClusterTrustSink.After;
    assert (arrivals + [a])[..|arrivals|] == arrivals;
  }

  lemma NoneYet(k: Primitives, info: string, sink: ClusterTrustSink, slots: imap<string, Slot>, trust: Trust,
                requests: seq<Incoming>)
    requires IsHash(k.sha256) && forall id :: id in slots
    ensures ArrivalsOf(k, info, sink, slots, trust, requests, [])
    ensures forall id :: SlotAfter(k, info, slots[id], id, []) == slots[id]
    ensures TrustAfter(k, info, sink, slots, trust, Writings(requests), []) == trust
  {
  }

  class PairingNode {
    const info: string
    const trust: ClusterTrustSink
    var joiners: map<string, JoinerSession>
    var inviters: map<string, InviterSession>
    var pending: map<string, PendingInvite>
    ghost var owner: map<object, string>  // the id that each session and each machine inside one belongs to

    constructor (k: Primitives, info: string, trust: ClusterTrustSink)
      requires trust.Valid(k)
      ensures fresh(this)
      ensures this.info == info && this.trust == trust && Valid(k)
      ensures joiners == map[] && inviters == map[] && pending == map[] && owner == map[]
    {
      this.info, this.trust := info, trust;
      joiners, inviters, pending, owner := map[], map[], map[], map[];
    }

    /** Each session belongs to the id it is filed under, so no two ids share one. */
    ghost predicate Owned()
      reads this
    {
      && (forall id :: id in joiners ==>
            && joiners[id] in owner && owner[joiners[id]] == id
            && joiners[id].peer in owner && owner[joiners[id].peer] == id)
      && (forall id :: id in inviters ==>
            && inviters[id] in owner && owner[inviters[id]] == id
            && inviters[id].server in owner && owner[inviters[id].server] == id)
    }

    /** Ids share nothing, and every captured identity is bound to its certificate. */
    ghost predicate Valid(k: Primitives)
      reads this, owner.Keys, trust, trust.pins
    {
      && Owned() && trust.Valid(k)
      && this !in owner && this !in trust.Parts() && owner.Keys !! trust.Parts()
      && (forall id :: id in joiners ==> joiners[id].Valid(k))
      && (forall id :: id in inviters ==> inviters[id].Valid(k))
    }

    ghost function SlotOf(id: string): Slot
      requires Owned()
      reads this, owner.Keys
    {
      Slot(if id in joiners then Some(joiners[id].View()) else None,
           if id in inviters then Some(inviters[id].View()) else None,
           if id in pending then Some(pending[id]) else None)
    }

    /**
     * If the maps differ at most at `id` and no object of another id has changed, the other slots are as
     * before, and the node is valid if its part at `id` is.
     */
    twostate lemma OthersKept(new k: Primitives, new id: string)
      requires old(Valid(k)) && Owned() && trust.Valid(k)
      requires this !in owner && owner.Keys !! trust.Parts()
      requires joiners - {id} == old(joiners) - {id} && inviters - {id} == old(inviters) - {id}
      requires pending - {id} == old(pending) - {id}
      requires forall o | o in old(owner) && old(owner)[o] != id :: unchanged(o)
      requires id in joiners ==> joiners[id].Valid(k)
      requires id in inviters ==> inviters[id].Valid(k)
      ensures Valid(k)
      ensures forall other :: other != id ==> SlotOf(other) == old(SlotOf(other))
    {
      hide JoinerSession.View, InviterSession.View, Bound;
      forall other | other != id
        ensures SlotOf(other) == old(SlotOf(other))
        ensures other in joiners ==> joiners[other].Valid(k)
        ensures other in inviters ==> inviters[other].Valid(k)
      {
        assert other in joiners <==> other in (joiners - {id});
        assert other in old(joiners) <==> other in (old(joiners) - {id});
        assert other in inviters <==> other in (inviters - {id});
        assert other in old(inviters) <==> other in (old(inviters) - {id});
        assert other in pending <==> other in (pending - {id});
        assert other in old(pending) <==> other in (old(pending) - {id});
      }
    }

    /** A request changes the slot of its own id, as `HandleSlot` says, and no other. */
    method HandleRequest(k: Primitives, env: Envelope, f: Fresh, writing: Writing) returns (reply: Option<Reply>)
      requires IsHash(k.sha256) && Valid(k)
      modifies this, owner.Keys, trust.Parts()
      ensures Valid(k) && fresh(owner.Keys - old(owner.Keys))
      ensures var step := HandleSlot(k, info, old(SlotOf(env.inviteId)), old(trust.clustered), env, f);
        && SlotOf(env.inviteId) == step.slot && reply == step.reply
        && trust.State() == trust.After(k, old(trust.State()), step.pinned, writing)
      ensures forall id :: id != env.inviteId ==> SlotOf(id) == old(SlotOf(id))
    {
      hide InitialRequest, CompletionRequest, JoinerSession.View, InviterSession.View;
      if env.inviteId == "" {
        return Some(Reply(400, SignalEnvelope("", env.phase, "missing inviteId")));
      }
      if env.phase == INITIAL {
        reply := OnInitialRequest(k, env, f);
      } else if env.phase == COMPLETION {
        reply := OnCompletionRequest(k, env, f, writing);
      } else if IsSignal(env.phase) {
        OnSignal(k, env);
        reply := Some(Reply(200, NO_ENVELOPE));
      } else {
        reply := Some(Reply(400, SignalEnvelope(env.inviteId, env.phase, "unknown phase")));
      }
    }

    method OnInitialRequest(k: Primitives, env: Envelope, f: Fresh) returns (reply: Option<Reply>)
      requires IsHash(k.sha256) && Valid(k)
      modifies this, owner.Keys
      ensures Valid(k) && fresh(owner.Keys - old(owner.Keys))
      ensures var step := InitialRequest(k, info, old(SlotOf(env.inviteId)), trust.clustered, env, f);
        SlotOf(env.inviteId) == step.slot && reply == step.reply && step.pinned.None?
      ensures forall id :: id != env.inviteId ==> SlotOf(id) == old(SlotOf(id))
    {
      hide AnswerInitial, JoinerSession.View, InviterSession.View, NewJoiner, Bound, PinStore.Pin, PinStore.PinsOk;
      var id := env.inviteId;
      if id !in joiners {
        if FirstType(env.msg) != Some(1) {
          return Some(Reply(400, SignalEnvelope(id, INITIAL, "invalid EAP-NOOB message")));
        }
        var clustered := trust.IsClustered();
        if clustered {
          return Some(Reply(409, RejectedEnvelope(ALREADY_CLUSTERED)));
        }
        AnswerReplacesJoiner(k, SlotOf(id), Some(NewJoiner(info)), NewJoiner(info), env, f);
        AdmitJoiner(k, id);
      }
      reply := AdvanceJoiner(k, env, f);
    }

    /** The first message of an invite creates its session. */
    method AdmitJoiner(k: Primitives, id: string)
      requires Valid(k) && id !in joiners
      modifies this
      ensures Valid(k) && fresh(owner.Keys - old(owner.Keys)) && id in joiners
      ensures SlotOf(id) == old(SlotOf(id)).(joiner := Some(NewJoiner(info)))
      ensures forall other :: other != id ==> SlotOf(other) == old(SlotOf(other))
    {
      hide JoinerSession.View, InviterSession.View, NewJoiner, Bound, PinStore.Pin, PinStore.PinsOk;
      var session := new JoinerSession(info);
      joiners := joiners[id := session];
      owner := owner[session := id][session.peer := id];
      Admitted(k, id, session);
    }

    twostate lemma Admitted(new k: Primitives, new id: string, new session: JoinerSession)
      requires old(Valid(k)) && id !in old(joiners) && fresh(session) && fresh(session.peer) && session.Valid(k)
      requires joiners == old(joiners)[id := session] && inviters == old(inviters) && pending == old(pending)
      requires owner == old(owner)[session := id][session.peer := id]
      requires forall o | o in old(owner) :: unchanged(o)
      requires unchanged(trust) && unchanged(trust.pins)
      ensures Valid(k)
      ensures SlotOf(id) == old(SlotOf(id)).(joiner := Some(session.View()))
      ensures forall other :: other != id ==> SlotOf(other) == old(SlotOf(other))
    {
      hide JoinerSession.View, InviterSession.View, Bound, PinStore.PinsOk, JoinerSession.Valid;
      hide InviterSession.Valid, ClusterTrustSink.Valid;
      assert joiners - {id} == old(joiners) - {id};
      OthersKept(k, id);
    }

    /** The stored session processes the message; an error evicts it. */
    method AdvanceJoiner(k: Primitives, env: Envelope, f: Fresh) returns (reply: Option<Reply>)
      requires IsHash(k.sha256) && Valid(k) && env.inviteId in joiners
      modifies this, owner.Keys
      ensures Valid(k) && owner == old(owner)
      ensures var slot := old(SlotOf(env.inviteId));
        var step := AnswerInitial(k, slot, slot.joiner.value, env, f);
        SlotOf(env.inviteId) == step.slot && reply == step.reply
      ensures forall id :: id != env.inviteId ==> SlotOf(id) == old(SlotOf(id))
    {
      hide JoinerOnInitial, JoinerSession.View, InviterSession.View, Bound, PinStore.Pin, PinStore.PinsOk;
      hide InviterSession.Valid, BlobOf, PendingOf;
      var id := env.inviteId;
      var session := joiners[id];
      ghost var slot := SlotOf(id);
      ghost var step := AnswerInitial(k, slot, slot.joiner.value, env, f);
      var answer := session.OnInitial(k, env.msg, f);
      assert step == Answered(slot, JoinerInitial(session.View(), answer), env);
      match answer {
        case Panicked =>
          reply := None;
        case Returned(Ok(msg)) =>
          if session.peer.state == Waiting && session.inviter.Some? {
            pending := pending[id := PendingOf(id, session.inviter.value.info)];
          }
          reply := Some(Reply(200, WithMsg(id, INITIAL, msg)));
        case Returned(Err(e)) =>
          joiners := joiners - {id};
          reply := Some(Reply(400, SignalEnvelope(id, INITIAL, e)));
      }
      assert Owned();
      hide AnswerInitial;
      OthersKept(k, id);
    }

    method OnCompletionRequest(k: Primitives, env: Envelope, f: Fresh, writing: Writing) returns (reply: Option<Reply>)
      requires IsHash(k.sha256) && Valid(k)
      modifies owner.Keys, trust.Parts()
      ensures Valid(k)
      ensures var step := CompletionRequest(k, old(SlotOf(env.inviteId)), env, f);
        && SlotOf(env.inviteId) == step.slot && reply == step.reply
        && trust.State() == trust.After(k, old(trust.State()), step.pinned, writing)
      ensures forall id :: id != env.inviteId ==> SlotOf(id) == old(SlotOf(id))
    {
      hide InviterOnCompletion, JoinerSession.View, InviterSession.View, Bound, PinStore.PinsOk, FromOutcome;
      hide PinStore.Pin;
      hide JoinerSession.Valid, BlobOf;
      var id := env.inviteId;
      if id !in inviters {
        return Some(Reply(409, SignalEnvelope(id, COMPLETION, "unknown or expired inviteId")));
      }
      var session := inviters[id];
      if env.msg.Empty? {
        return Some(Reply(200, WithMsg(id, COMPLETION, Message(START))));
      }
      var answer := session.OnCompletion(k, env.msg, f);
      OthersKept(k, id);
      match answer {
        case Panicked =>
          reply := None;
        case Returned(Ok(step)) =>
          if step.done && step.success {
            var paired := PairedOf(session.joiner, session.server.assoc);
            if paired.Some? {
              PinPaired(k, paired.value, writing);
            }
          }
          reply := Some(Reply(200, WithMsg(id, COMPLETION, BlobOf(step.send))));
        case Returned(Err(e)) =>
          reply := Some(Reply(400, SignalEnvelope(id, COMPLETION, e)));
      }
    }

    method OnSignal(k: Primitives, env: Envelope)
      requires Valid(k)
      modifies this
      ensures Valid(k) && owner == old(owner)
      ensures SlotOf(env.inviteId) == Node.OnSignal(old(SlotOf(env.inviteId)), env)
      ensures forall id :: id != env.inviteId ==> SlotOf(id) == old(SlotOf(id))
    {
      hide JoinerSession.View, InviterSession.View, Bound, PinStore.Pin, PinStore.PinsOk;
      if env.phase == CANCEL {
        Clear(k, env.inviteId);
      } else if env.phase == DECLINE || env.phase == FAIL || env.phase == EXPIRED {
        inviters := inviters - {env.inviteId};
        OthersKept(k, env.inviteId);
      }
    }

    /** The joiner's session and the pending invite of one id go. */
    method Clear(k: Primitives, id: string)
      requires Valid(k)
      modifies this
      ensures Valid(k) && owner == old(owner)
      ensures SlotOf(id) == old(SlotOf(id)).(joiner := None, pending := None)
      ensures forall other :: other != id ==> SlotOf(other) == old(SlotOf(other))
    {
      hide JoinerSession.View, InviterSession.View, Bound, PinStore.Pin, PinStore.PinsOk;
      joiners := joiners - {id};
      pending := pending - {id};
      OthersKept(k, id);
    }

    /**
     * Serving any requests in any interleaving: each id ends up as if its own requests had been served
     * alone, under the clustered flags that they met; those flags, the pins and the files are what the ids'
     * own pairings make of them, in the order in which they came and with what became of each write.
     */
    method ServeAll(k: Primitives, requests: seq<Incoming>)
      returns (ghost arrivals: seq<Arrival>, ghost slots: imap<string, Slot>)
      requires IsHash(k.sha256) && Valid(k)
      modifies this, owner.Keys, trust.Parts()
      ensures Valid(k)
      ensures forall id :: id in slots && slots[id] == old(SlotOf(id))
      ensures |arrivals| == |requests|
      ensures ArrivalsOf(k, info, trust, slots, old(trust.State()), requests, arrivals)
      ensures forall id :: SlotOf(id) == SlotAfter(k, info, slots[id], id, arrivals)
      ensures trust.State() == TrustAfter(k, info, trust, slots, old(trust.State()), Writings(requests), arrivals)
    {
      hide HandleSlot, SlotOf, Owned, ClusterTrustSink.After, Writings;
      hide JoinerSession.Valid, InviterSession.Valid, ClusterTrustSink.Valid;
      arrivals := [];
      slots := imap id: string | true :: SlotOf(id);
      ghost var start := trust.State();
      NoneYet(k, info, trust, slots, start, requests);
      hide SlotAfter, TrustAfter, ArrivalsOf;
      var i := 0;
      while i < |requests|
        invariant 0 <= i <= |requests| && |arrivals| == i
        invariant Valid(k) && fresh(owner.Keys - old(owner.Keys))
        invariant ArrivalsOf(k, info, trust, slots, start, requests, arrivals)
        invariant forall id :: SlotOf(id) == SlotAfter(k, info, slots[id], id, arrivals)
        invariant trust.State() == TrustAfter(k, info, trust, slots, start, Writings(requests), arrivals)
      {
        ghost var a := Arrival(requests[i].env, requests[i].random, trust.State().clustered);
        WritingsAt(requests, i);
        OneMore(k, info, trust, slots, start, Writings(requests), arrivals, a);
        OneMoreArrived(k, info, trust, slots, start, requests, arrivals, a);
        var reply := HandleRequest(k, requests[i].env, requests[i].random, requests[i].writing);
        arrivals := arrivals + [a];
        i := i + 1;
      }
    }

    /** Inviter: drive the Initial Exchange over the given posts and file the session under the new id. */
    method CreateInvite(k: Primitives, id: string, pin: string, posts: seq<Post>) returns (r: Result<()>)
      requires IsHash(k.sha256) && Valid(k)
      modifies this
      ensures Valid(k)
      ensures match DriveInvite(k, NewInviter(info), pin, posts)
              case Ok(i) => r == Ok(()) && SlotOf(id) == old(SlotOf(id)).(inviter := Some(i))
              case Err(e) => r == Err(e) && SlotOf(id) == old(SlotOf(id))
      ensures forall other :: other != id ==> SlotOf(other) == old(SlotOf(other))
    {
      hide DriveInvite, JoinerSession.View, InviterSession.View, NewInviter, Bound, PinStore.PinsOk;
      var session := new InviterSession(info);
      r := DriveSession(k, session, pin, posts);
      if r.Ok? {
        inviters := inviters[id := session];
        owner := owner[session := id][session.server := id];
        Filed(k, id, session);
      }
    }

    /**
     * Joiner: feed the PIN and drive the Completion Exchange over the given posts. A pairing is pinned;
     * a pairing or a refusal clears the id, giving up keeps the session as it stands.
     */
    method SubmitPin(k: Primitives, id: string, pin: string, posts: seq<Post>, writing: Writing)
      returns (r: Result<Paired>)
      requires IsHash(k.sha256) && Valid(k)
      modifies this, owner.Keys, trust.Parts()
      ensures Valid(k)
      ensures match SubmitBegin(k, old(SlotOf(id)), pin)
              case Err(e) => r == Err(e) && SlotOf(id) == old(SlotOf(id)) && trust.State() == old(trust.State())
              case Ok(j) =>
                var end := DriveSubmit(k, j, posts);
                && SlotOf(id) == SubmitSlot(old(SlotOf(id)), end)
                && if end.SubmitPaired? then
                     && r == Ok(end.paired)
                     && trust.State() == trust.WithPaired(k, old(trust.State()), end.paired, writing)
                   else r.Err? && trust.State() == old(trust.State())
      ensures forall other :: other != id ==> SlotOf(other) == old(SlotOf(other))
    {
      hide DriveSubmit, SubmitBegin, JoinerSession.View, InviterSession.View, Bound, PinStore.Pin, PinStore.PinsOk;
      var entered := EnterPin(k, id, pin);
      if entered.Err? {
        return Err(entered.reason);
      }
      var end := Drive(k, id, posts);
      r := Conclude(k, id, end, writing);
    }

    /** The checks at the head of `submit_pin`, and feeding the PIN. */
    method EnterPin(k: Primitives, id: string, pin: string) returns (r: Result<()>)
      requires IsHash(k.sha256) && Valid(k)
      modifies owner.Keys
      ensures Valid(k)
      ensures match SubmitBegin(k, old(SlotOf(id)), pin)
              case Err(e) => r == Err(e) && SlotOf(id) == old(SlotOf(id))
              case Ok(j) => r == Ok(()) && id in joiners && SlotOf(id) == old(SlotOf(id)).(joiner := Some(j))
      ensures forall other :: other != id ==> SlotOf(other) == old(SlotOf(other))
    {
      hide JoinerFeedPin, InviterSession.View, Bound, PinStore.Pin, PinStore.PinsOk;
      if !IsValidPin(pin) {
        return Err("pin must be six digits");
      }
      if id !in joiners {
        return Err("unknown or evicted inviteId");
      }
      var session := joiners[id];
      if session.inviter.None? || session.inviter.value.info.addr == "" {
        return Err("inviter address unknown");
      }
      r := session.FeedPin(k, pin);
      OthersKept(k, id);
    }

    /** The loop of `submit_pin` on the stored session. */
    method Drive(k: Primitives, id: string, posts: seq<Post>) returns (end: SubmitStep)
      requires IsHash(k.sha256) && Valid(k) && id in joiners
      modifies owner.Keys
      ensures Valid(k)
      ensures end == DriveSubmit(k, old(joiners[id].View()), posts)
      ensures SlotOf(id) == old(SlotOf(id)).(joiner := Some(end.j))
      ensures end.SubmitPaired? ==> Bound(k, end.paired.peer, end.paired.peerCertDer)
      ensures forall other :: other != id ==> SlotOf(other) == old(SlotOf(other))
    {
      hide DriveSubmit, JoinerSession.View, InviterSession.View, Bound, PinStore.Pin, PinStore.PinsOk;
      end := DriveJoiner(k, joiners[id], posts);
      OthersKept(k, id);
    }

    /** Pinning touches no session. */
    method PinPaired(k: Primitives, paired: Paired, writing: Writing)
      requires Valid(k) && Bound(k, paired.peer, paired.peerCertDer)
      modifies trust.Parts()
      ensures Valid(k) && trust.State() == trust.WithPaired(k, old(trust.State()), paired, writing)
      ensures forall id :: SlotOf(id) == old(SlotOf(id))
    {
      hide JoinerSession.View, InviterSession.View, Bound, PinStore.Pin, PinStore.PinsOk;
      trust.PinPeer(k, paired, writing);
    }

    /** What `submit_pin` does with the end of its exchange. */
    method Conclude(k: Primitives, id: string, end: SubmitStep, writing: Writing) returns (r: Result<Paired>)
      requires Valid(k) && id in joiners && joiners[id].View() == end.j
      requires end.SubmitPaired? ==> Bound(k, end.paired.peer, end.paired.peerCertDer)
      modifies this, trust.Parts()
      ensures Valid(k)
      ensures SlotOf(id) == SubmitSlot(old(SlotOf(id)), end)
      ensures if end.SubmitPaired? then
                r == Ok(end.paired) && trust.State() == trust.WithPaired(k, old(trust.State()), end.paired, writing)
              else r.Err? && trust.State() == old(trust.State())
      ensures forall other :: other != id ==> SlotOf(other) == old(SlotOf(other))
    {
      hide JoinerSession.View, InviterSession.View, Bound, PinStore.Pin, PinStore.PinsOk, JoinerSession.Valid;
      hide InviterSession.Valid;
      match end {
        case SubmitPaired(_, paired) =>
          PinPaired(k, paired, writing);
          Clear(k, id);
          r := Ok(paired);
        case SubmitRefused(_, authFailed, _) =>
          Clear(k, id);
          r := Err(if authFailed then "completion failed (incorrect pin)" else "completion failed");
        case _ =>
          r := Err("gave up");
      }
    }

    twostate lemma Filed(new k: Primitives, new id: string, new session: InviterSession)
      requires old(Valid(k)) && fresh(session) && fresh(session.server) && session.Valid(k)
      requires inviters == old(inviters)[id := session] && joiners == old(joiners) && pending == old(pending)
      requires owner == old(owner)[session := id][session.server := id]
      requires forall o | o in old(owner) :: unchanged(o)
      requires unchanged(trust) && unchanged(trust.pins)
      ensures Valid(k)
      ensures SlotOf(id) == old(SlotOf(id)).(inviter := Some(session.View()))
      ensures forall other :: other != id ==> SlotOf(other) == old(SlotOf(other))
    {
      hide JoinerSession.View, InviterSession.View, Bound, PinStore.PinsOk, JoinerSession.Valid;
      hide InviterSession.Valid, ClusterTrustSink.Valid;
      assert inviters - {id} == old(inviters) - {id};
      OthersKept(k, id);
    }
  }

  /** The loop of `submit_pin` on the joiner's session. */
  method DriveJoiner(k: Primitives, session: JoinerSession, posts: seq<Post>) returns (end: SubmitStep)
    requires IsHash(k.sha256)
    modifies session.peer
    ensures end == DriveSubmit(k, old(session.View()), posts) && session.View() == end.j
    ensures session.inviter == old(session.inviter)
    ensures end.SubmitPaired? ==>
              && session.inviter.Some? && end.paired.peer == session.inviter.value.info
              && end.paired.peerCertDer == session.inviter.value.certDer
  {
    hide JoinerOnCompletion;
    var n := 0;
    while true
      invariant 0 <= n <= |posts|
      invariant DriveSubmit(k, old(session.View()), posts) == DriveSubmit(k, session.View(), posts[n..])
      decreases |posts| - n
    {
      if n == |posts| {
        return SubmitStuck(session.View());
      }
      var resp := PostResult(posts[n]);
      if resp.Err? {
        return SubmitStuck(session.View());
      }
      var answer := session.OnCompletion(k, resp.value.msg, posts[n].random);
      assert posts[n..][1..] == posts[n + 1..];
      if answer.Panicked? {
        return SubmitStuck(session.View());
      }
      var step := answer.value;
      if step.done {
        if !step.success {
          return SubmitRefused(session.View(), step.authFailed, step.errorCode);
        }
        var paired := PairedOf(session.inviter, session.peer.assoc);
        end := if paired.Some? then SubmitPaired(session.View(), paired.value) else SubmitStuck(session.View());
        return;
      }
      if step.send.None? {
        return SubmitStuck(session.View());
      }
      n := n + 1;
    }
  }

  /** The loop of `create_invite` on a session that is not yet shared. */
  method DriveSession(k: Primitives, session: InviterSession, pin: string, posts: seq<Post>) returns (r: Result<()>)
    requires IsHash(k.sha256)
    modifies session.server
    ensures match DriveInvite(k, old(session.View()), pin, posts)
            case Ok(i) => r == Ok(()) && session.View() == i
            case Err(e) => r == Err(e)
  {
    hide InviterOnInitial, InviterSetPin;
    var n := 0;
    while true
      invariant 0 <= n <= |posts|
      invariant DriveInvite(k, old(session.View()), pin, posts) == DriveInvite(k, session.View(), pin, posts[n..])
      decreases |posts| - n
    {
      if n == |posts| {
        return Err("transport failed");
      }
      var resp := PostResult(posts[n]);
      if resp.Err? {
        return Err(resp.reason);
      }
      if resp.value.rejected {
        return Err("joiner rejected pairing: " + resp.value.reason);
      }
      ghost var before := session.View();
      var answer := session.OnInitial(k, resp.value.msg, posts[n].random);
      assert posts[n..][1..] == posts[n + 1..];
      if answer.Panicked? {
        return Err("panic");
      }
      var step := answer.value;
      if step.error.Some? {
        return Err("initial exchange failed: " + step.error.value);
      }
      if step.done {
        if session.server.state != Waiting {
          return Err("Initial ended in a state other than Waiting");
        }
        assert InviteIter(k, before, resp.value, posts[n].random) == InviteReady(session.View());
        r := session.SetPin(k, pin);
        return;
      }
      if step.send.None? {
        return Err("inviter stalled in Initial");
      }
      n := n + 1;
    }
  }
}
