/**
 * The joiner and inviter sessions of crates/pair-cluster/src/session.rs: a machine and the identity it
 * authenticates, captured once when the machine first shows it.
 */
module Session {
  import opened Octets
  import opened Kdf
  import opened Primitives
  import opened Protocol
  import opened Pin
  import opened Info
  import opened Machines

  // ---- step functions ----

  datatype JoinerState = JoinerState(peer: PeerState, inviter: Option<PeerIdentity>)

  datatype InviterState = InviterState(server: ServerState, joiner: Option<PeerIdentity>)

  datatype Step = Step(send: Option<Wire>, done: bool, success: bool, authFailed: bool, errorCode: Option<int>,
                       error: Option<string>)

  /** The call panicked, or returned. */
  datatype Answer<+T> = Panicked | Returned(value: T)

  function FromOutcome(o: Outcome): Step {
    Step(o.send, o.done, o.success, o.errorCode.Some? && IsWrongPinCode(o.errorCode.value), o.errorCode, o.error)
  }

  function BlobOf(send: Option<Wire>): Blob {
    match send case Some(w) => Message(w) case None => Empty
  }

  function NewJoiner(info: string): JoinerState {
    JoinerState(NewPeer(info), None)
  }

  function NewInviter(info: string): InviterState {
    InviterState(NewServer(info), None)
  }

  datatype JoinerInitial = JoinerInitial(j: JoinerState, answer: Answer<Result<Blob>>)

  function JoinerOnInitial(k: Primitives, j: JoinerState, blob: Blob, f: Fresh): JoinerInitial
    requires IsHash(k.sha256)
  {
    var step := PeerReceive(k, j.peer, blob, f);
    match step.r
    case Aborted => JoinerInitial(j, Panicked)
    case Reacted(o) =>
      var j' := j.(peer := step.p);
      if o.error.Some? then JoinerInitial(j', Returned(Err("eap-noob: " + o.error.value)))
      else if step.p.state == Waiting && j.inviter.None? then
        var raw := step.p.m.inp.serverInfo;
        if raw == "" then JoinerInitial(j', Returned(Err("inviter sent no ServerInfo")))
        else
          (match ParsePairingInfo(k, raw)
           case Err(e) => JoinerInitial(j', Returned(Err(e)))
           case Ok(id) => JoinerInitial(j'.(inviter := Some(id)), Returned(Ok(BlobOf(o.send)))))
      else JoinerInitial(j', Returned(Ok(BlobOf(o.send))))
  }

  function JoinerFeedPin(k: Primitives, j: JoinerState, pin: string): Result<JoinerState>
    requires IsHash(k.sha256)
  {
    match PeerOob(k, j.peer, NoobFromPin(pin)) case Ok(p) => Ok(j.(peer := p)) case Err(e) => Err(e)
  }

  datatype JoinerCompletion = JoinerCompletion(j: JoinerState, answer: Answer<Step>)

  function JoinerOnCompletion(k: Primitives, j: JoinerState, blob: Blob, f: Fresh): JoinerCompletion
    requires IsHash(k.sha256)
  {
    var step := PeerReceive(k, j.peer, blob, f);
    JoinerCompletion(j.(peer := step.p),
                     match step.r case Aborted => Panicked case Reacted(o) => Returned(FromOutcome(o)))
  }

  datatype InviterInitial = InviterInitial(i: InviterState, answer: Answer<Step>)

  function InviterOnInitial(k: Primitives, i: InviterState, blob: Blob, f: Fresh): InviterInitial
    requires IsHash(k.sha256)
  {
    var step := ServerReceive(k, i.server, blob, f);
    InviterInitial(i.(server := step.s),
                   match step.r case Aborted => Panicked case Reacted(o) => Returned(FromOutcome(o)))
  }

  function InviterSetPin(k: Primitives, i: InviterState, pin: string): Result<InviterState>
    requires IsHash(k.sha256)
  {
    match ServerOob(k, i.server, NoobFromPin(pin)) case Ok(s) => Ok(i.(server := s)) case Err(e) => Err(e)
  }

  datatype InviterCompletion = InviterCompletion(i: InviterState, answer: Answer<Result<Step>>)

  function InviterOnCompletion(k: Primitives, i: InviterState, blob: Blob, f: Fresh): InviterCompletion
    requires IsHash(k.sha256)
  {
    var step := ServerReceive(k, i.server, blob, f);
    match step.r
    case Aborted => InviterCompletion(i, Panicked)
    case Reacted(o) =>
      var i' := i.(server := step.s);
      if step.s.state == Registered && i.joiner.None? then
        var raw := step.s.m.inp.peerInfo;
        if raw == "" then InviterCompletion(i', Returned(Err("joiner sent no PeerInfo")))
        else
          (match ParsePairingInfo(k, raw)
           case Err(e) => InviterCompletion(i', Returned(Err(e)))
           case Ok(id) => InviterCompletion(i'.(joiner := Some(id)), Returned(Ok(FromOutcome(o)))))
      else InviterCompletion(i', Returned(Ok(FromOutcome(o))))
  }

  /** A captured identity is one that its certificate certifies. */
  ghost predicate IdentityBound(k: Primitives, id: Option<PeerIdentity>) {
    id.Some? ==> Bound(k, id.value.info, id.value.certDer)
  }

  // ---- the objects ----

  class JoinerSession {
    const peer: Peer
    var inviter: Option<PeerIdentity>

    function View(): JoinerState
      reads this, peer
    {
      JoinerState(peer.View(), inviter)
    }

    ghost predicate Valid(k: Primitives)
      reads this
    {
      IdentityBound(k, inviter)
    }

    constructor (info: string)
      ensures View() == NewJoiner(info)
      ensures fresh(peer) && inviter == None
    {
      peer := new Peer.WithPeerInfo(info);
      inviter := None;
    }

    method OnInitial(k: Primitives, blob: Blob, f: Fresh) returns (a: Answer<Result<Blob>>)
      requires IsHash(k.sha256) && Valid(k)
      modifies this, peer
      ensures Valid(k) && JoinerInitial(View(), a) == JoinerOnInitial(k, old(View()), blob, f)
      ensures View().peer.state == peer.state && View().inviter == inviter
    {
      hide PeerReceive, ParsePairingInfo;
      var r := peer.Receive(k, blob, f);
      if r.Aborted? {
        PanicKeepsPeer(k, old(peer.View()), blob, f);
        return Panicked;
      }
      var out := r.outcome;
      if out.error.Some? {
        return Returned(Err("eap-noob: " + out.error.value));
      }
      if peer.state == Waiting && inviter.None? {
        var raw := peer.m.inp.serverInfo;
        if raw == "" {
          return Returned(Err("inviter sent no ServerInfo"));
        }
        var id := ParsePairingInfo(k, raw);
        if id.Err? {
          return Returned(Err(id.reason));
        }
        inviter := Some(id.value);
      }
      a := Returned(Ok(BlobOf(out.send)));
    }

    method FeedPin(k: Primitives, pin: string) returns (r: Result<()>)
      requires IsHash(k.sha256)
      modifies peer
      ensures match JoinerFeedPin(k, old(View()), pin)
              case Ok(j) => r == Ok(()) && View() == j
              case Err(e) => r == Err(e) && View() == old(View())
    {
      r := peer.OobInputNoob(k, NoobFromPin(pin));
    }

    method OnCompletion(k: Primitives, blob: Blob, f: Fresh) returns (a: Answer<Step>)
      requires IsHash(k.sha256)
      modifies peer
      ensures JoinerCompletion(View(), a) == JoinerOnCompletion(k, old(View()), blob, f)
    {
      hide PeerReceive;
      var r := peer.Receive(k, blob, f);
      a := match r case Aborted => Panicked case Reacted(o) => Returned(FromOutcome(o));
    }
  }

  lemma PanicKeepsPeer(k: Primitives, p: PeerState, blob: Blob, f: Fresh)
    requires IsHash(k.sha256) && PeerReceive(k, p, blob, f).r.Aborted?
    ensures PeerReceive(k, p, blob, f).p == p
  {
  }

  class InviterSession {
    const server: Server
    var joiner: Option<PeerIdentity>

    function View(): InviterState
      reads this, server
    {
      InviterState(server.View(), joiner)
    }

    ghost predicate Valid(k: Primitives)
      reads this
    {
      IdentityBound(k, joiner)
    }

    constructor (info: string)
      ensures View() == NewInviter(info)
      ensures fresh(server) && joiner == None
    {
      server := new Server.WithServerInfo(info);
      joiner := None;
    }

    method OnInitial(k: Primitives, blob: Blob, f: Fresh) returns (a: Answer<Step>)
      requires IsHash(k.sha256)
      modifies server
      ensures InviterInitial(View(), a) == InviterOnInitial(k, old(View()), blob, f)
    {
      hide ServerReceive;
      var r := server.Receive(k, blob, f);
      a := match r case Aborted => Panicked case Reacted(o) => Returned(FromOutcome(o));
    }

    method SetPin(k: Primitives, pin: string) returns (r: Result<()>)
      requires IsHash(k.sha256)
      modifies server
      ensures match InviterSetPin(k, old(View()), pin)
              case Ok(i) => r == Ok(()) && View() == i
              case Err(e) => r == Err(e) && View() == old(View())
    {
      r := server.OobOutputWith(k, NoobFromPin(pin));
    }

    method OnCompletion(k: Primitives, blob: Blob, f: Fresh) returns (a: Answer<Result<Step>>)
      requires IsHash(k.sha256) && Valid(k)
      modifies this, server
      ensures Valid(k) && InviterCompletion(View(), a) == InviterOnCompletion(k, old(View()), blob, f)
      ensures View().server.assoc == server.assoc && View().joiner == joiner
    {
      hide ServerReceive, ParsePairingInfo;
      var r := server.Receive(k, blob, f);
      if r.Aborted? {
        PanicKeepsServer(k, old(server.View()), blob, f);
        return Panicked;
      }
      if server.state == Registered && joiner.None? {
        var raw := server.m.inp.peerInfo;
        if raw == "" {
          return Returned(Err("joiner sent no PeerInfo"));
        }
        var id := ParsePairingInfo(k, raw);
        if id.Err? {
          return Returned(Err(id.reason));
        }
        joiner := Some(id.value);
      }
      a := Returned(Ok(FromOutcome(r.outcome)));
    }
  }

  lemma PanicKeepsServer(k: Primitives, s: ServerState, blob: Blob, f: Fresh)
    requires IsHash(k.sha256) && ServerReceive(k, s, blob, f).r.Aborted?
    ensures ServerReceive(k, s, blob, f).s == s
  {
  }

  // ---- in full ----

  /** A step shows the machine's outcome, and the code of a wrong PIN is 2003 or 4001. */
  lemma StepsInFull(o: Outcome)
    ensures var step := FromOutcome(o);
      && step.send == o.send && step.done == o.done && step.success == o.success && step.error == o.error
      && step.errorCode == o.errorCode && (step.authFailed <==> o.errorCode == Some(2003) || o.errorCode == Some(4001))
  {
  }
}
