/**
 * That the cases the theorems speak of occur: nodes, certificates and runs for the record of primitives that
 * `Consistency` builds, which meet every premise.
 */
module Witnesses {
  import opened Octets
  import opened Decimal
  import opened Kdf
  import opened Primitives
  import opened Protocol
  import opened Pin
  import opened Pem
  import opened Info
  import opened Session
  import opened Node
  import opened Consistency
  import opened Lanes
  import opened LaneSafety
  import opened LaneRuns
  import opened LaneOutcomes
  import opened Invariants
  import opened StoredSessions
  import opened PendingInvites
  import opened KeyOrigin
  import opened LaneSystem
  import opened LaneFlag
  import opened SingleCluster
  import HonestTranscript
  import ClusterDir

  // ---- two nodes ----

  function IdentityOf(id: string, addr: string): PeerIdentity
    requires IsLatin(id)
  {
    PeerIdentity(PairingInfo(PAIRING_INFO_VERSION, id, "", "", "", 1, "", addr, PemOf(DerOf(id))), DerOf(id))
  }

  const INVITER := IdentityOf("inviter", "a:1")
  const JOINER := IdentityOf("joiner", "b:1")

  ghost function TwoNodes(): World {
    World(Example(), "invite", ShowInfo(INVITER.info), ShowInfo(JOINER.info))
  }

  lemma ShowsInfo()
    ensures Example().showInfo == ShowInfo && forall i :: ShowInfo(i) != ""
  {
    hide Quote, ShowKey, Latin, ShowInt, Inverse, Injective, Utf, Digest, UuidIn;
  }

  lemma IdentitySound(id: string, addr: string)
    requires IsLatin(id) && id != ""
    ensures var i := IdentityOf(id, addr); Bound(Example(), i.info, i.certDer)
  {
    CertificateOf(id);
    hide Example, PemOf, DerOf, PemToDer;
  }

  lemma NodesAreSound()
    ensures Bound(Example(), INVITER.info, INVITER.certDer) && Bound(Example(), JOINER.info, JOINER.certDer)
    ensures WorldOk(TwoNodes()) && Reachable(TwoNodes())
    ensures ParsePairingInfo(Example(), TwoNodes().inviterInfo) == Ok(INVITER)
    ensures TwoNodes().inviterInfo == Example().showInfo(INVITER.info)
    ensures TwoNodes().joinerInfo == Example().showInfo(JOINER.info)
  {
    hide PemOf, DerOf, PemToDer, TextLaws, HashLaws, KeyLaws, InfoLaws, ParsePairingInfo, Bound, Example, ShowInfo;
    IdentitySound("inviter", "a:1");
    IdentitySound("joiner", "b:1");
    LawsHaveAModel();
    ShowsInfo();
    PrintedInfoParses(Example(), INVITER.info, INVITER.certDer);
  }

  lemma ExampleHashes()
    ensures HashLaws(Example()) && IsHash(Example().sha256)
  {
    LawsHaveAModel();
    hide TextLaws, KeyLaws, InfoLaws, Example;
  }

  lemma InfoFits()
    ensures INVITER.info.v == JOINER.info.v == 2 && INVITER.info.admissionEpoch == JOINER.info.admissionEpoch == 1
    ensures INVITER.info.addr != "" && TwoNodes().k == Example()
  {
    hide PemOf, DerOf, Example, ShowInfo;
  }

  // ---- runs ----

  const STILL := Fresh(ZEROS_16, [], ZEROS_32)

  /** The moves of a script, with nothing drawn but zeros. */
  function MovesOf(script: seq<Action>): seq<Move> {
    seq(|script|, i requires 0 <= i < |script| => Move(script[i], false, STILL, STILL))
  }

  lemma MovesFollow(pin: string, entered: string, posts: nat)
    requires IsValidPin(pin)
    ensures Follows(MovesOf(Script(pin, entered, posts)), Script(pin, entered, posts))
  {
  }

  lemma PinIdIsNoob(pin: string)
    requires IsValidPin(pin) && IsHash(Example().sha256)
    ensures PinNoobId(Example(), pin) == NoobFromPin(pin)
  {
    DigestOfPin(pin);
    hide NoobFromPin, Digest, Utf, Inverse, ShowInts;
  }

  /** For every PIN the two nodes pair: the premises of the honest run are met. */
  lemma NodesDoPair(pin: string)
    requires IsValidPin(pin)
    ensures WorldOk(TwoNodes())
    ensures var lane := Run(TwoNodes(), MovesOf(Script(pin, pin, 5)));
      && lane.inviterPinned.Some? && lane.joinerPinned.Some?
      && lane.inviterPinned.value.kz == lane.joinerPinned.value.kz
      && lane.inviterPinned.value.peer == JOINER.info && lane.joinerPinned.value.peer == INVITER.info
  {
    NodesAreSound();
    hide *;
    MovesFollow(pin, pin, 5);
    InfoFits();
    NodesPair(TwoNodes(), INVITER, JOINER, MovesOf(Script(pin, pin, 5)), pin);
  }

  /** For every two PINs the wrong one is refused: the premises of that run are met, the digests being apart. */
  lemma NodesDoRefuse(pin: string, entered: string)
    requires IsValidPin(pin) && IsValidPin(entered) && pin != entered
    ensures WorldOk(TwoNodes())
    ensures var lane := Run(TwoNodes(), MovesOf(Script(pin, entered, 4)));
      && lane.refused == Some((true, Some(2003))) && NothingPinned(lane) && NobodyRegistered(lane)
  {
    NodesAreSound();
    hide *;
    MovesFollow(pin, entered, 4);
    InfoFits();
    ExampleHashes();
    NoIdsCollide(pin, entered);
    WrongPinRun(TwoNodes(), MovesOf(Script(pin, entered, 4)), pin, entered);
  }

  lemma NoIdsCollide(pin: string, entered: string)
    requires IsValidPin(pin) && IsValidPin(entered) && IsHash(Example().sha256)
    ensures NoNoobIdCollision(Example(), Some(pin), Some(entered))
  {
    hide Example, PinNoobId, NoobFromPin;
    PinIdIsNoob(pin);
    PinIdIsNoob(entered);
  }

  /** An invite does come to be pending without its session, and a filed session does panic. */
  lemma OrphanAndPanicHappen(pin: string)
    requires IsValidPin(pin)
    ensures WorldOk(TwoNodes())
    ensures exists events :: Orphaned(SlotAfterEvents(Example(), TwoNodes().joinerInfo, events))
    ensures exists i, early :: Stored(Example(), i) && EarlyMacp(Example(), i, Message(early))
  {
    NodesAreSound();
    hide *;
    MovesFollow(pin, pin, 5);
    InfoFits();
    ExampleHashes();
    var w, moves := TwoNodes(), MovesOf(Script(pin, pin, 5));
    var events, garbage := OrphanReached(w, moves, pin, pin, 5, STILL);
    var replies, i, early := FiledCanPanic(w, moves, pin, pin, 5, STILL);
    StoredPanicsExactly(Example(), i, Message(early), STILL);
  }

  // ---- keys without the PIN, and the identity of an earlier negotiation ----

  lemma ExampleIsLawful()
    ensures Lawful(Example())
    ensures HashLaws(Example()) && IsHash(Example().sha256)
  {
    LawsHaveAModel();
    ExampleHashes();
    hide Example;
  }

  lemma OwnInfos()
    ensures ShowInfo(JOINER.info) != "" && ParsePairingInfo(Example(), ShowInfo(JOINER.info)) == Ok(JOINER)
    ensures ShowInfo(INVITER.info) != "" && ParsePairingInfo(Example(), ShowInfo(INVITER.info)) == Ok(INVITER)
    ensures JOINER != INVITER
  {
    hide PemOf, DerOf, TextLaws, HashLaws, KeyLaws, InfoLaws, ParsePairingInfo, Bound, Example, ShowInfo;
    NodesAreSound();
    ExampleIsLawful();
    ShowsInfo();
    PrintedInfoParses(Example(), JOINER.info, JOINER.certDer);
    assert JOINER.info.nodeUuid[0] == 'j' && INVITER.info.nodeUuid[0] == 'i';
  }

  /** For every PIN a session is filed with keys that were derived without it. */
  lemma KeysWithoutPin(pin: string) returns (posts: seq<Post>, filed: InviterState)
    requires IsValidPin(pin)
    ensures Lawful(Example()) && Stored(Example(), filed) && Settings(filed.server) && filed.joiner.None?
    ensures DriveInvite(Example(), NewInviter("{}"), pin, posts) == Ok(filed)
    ensures NamedEarly(Example(), NewInviter("{}"), posts) && filed.server.m.keym.Some?
    ensures var o := OriginAfterPosts(Example(), NewInviter("{}"), posts, NoKeys);
      KeysAre(Example(), filed, o) && o.From? && o.noob == []
    ensures filed.server.m.noob == NoobFromPin(pin) && filed.server.m.inp.peerInfo == ShowInfo(JOINER.info)
  {
    hide *;
    ExampleIsLawful();
    OwnInfos();
    posts, filed := FiledWithoutPin(Example(), "{}", ShowInfo(JOINER.info), pin, "invite", STILL);
  }

  /** It pairs under them with the joiner under its MAC. */
  lemma PairsWithoutPin(filed: InviterState) returns (env: Envelope, paired: InviterState)
    requires Lawful(Example()) && Stored(Example(), filed) && Settings(filed.server) && filed.joiner.None?
    requires filed.server.m.keym.Some? && filed.server.m.inp.peerInfo == ShowInfo(JOINER.info)
    ensures var step := CompletionRequest(Example(), Slot(None, Some(filed), None), env, STILL);
      && step.slot.inviter == Some(paired) && step.pinned.Some? && step.pinned.value.peer == JOINER.info
      && step.pinned.value.kz == filed.server.m.keym.value.kz
    ensures Stored(Example(), paired) && Settings(paired.server) && paired.joiner == Some(JOINER)
    ensures paired.server.m == filed.server.m
  {
    hide *;
    ExampleIsLawful();
    OwnInfos();
    Macd(filed.server, ShowInfo(JOINER.info));
    env, paired := HeldKeysPair(Example(), filed, "invite", JOINER, STILL);
    assert OrElse(filed.joiner, JOINER) == JOINER by { OrElseDefault(filed.joiner, JOINER); }
  }

  /** Negotiated anew it pins that joiner again, although the PeerInfo under the MAC is another node's. */
  lemma PinsOldIdentity(paired: InviterState) returns (msgs: seq<Wire>, env: Envelope)
    requires Lawful(Example()) && Stored(Example(), paired) && Settings(paired.server) && paired.joiner == Some(JOINER)
    ensures var before := AfterMessages(Example(), paired, msgs, STILL);
      var step := CompletionRequest(Example(), Slot(None, Some(before), None), env, STILL);
      && step.pinned.Some? && step.pinned.value.peer == JOINER.info
      && MacdIdentity(Example(), before.server) == Ok(INVITER) && MacpVerifies(Example(), before.server, env.msg)
  {
    hide *;
    ExampleIsLawful();
    OwnInfos();
    msgs, env := CapturePinnedAgain(Example(), paired, "invite", ShowInfo(INVITER.info), INVITER, STILL);
    Macd(AfterMessages(Example(), paired, msgs, STILL).server, ShowInfo(INVITER.info));
  }

  lemma Macd(s: ServerState, raw: string)
    ensures s.m.inp.peerInfo == raw ==> MacdIdentity(Example(), s) == ParsePairingInfo(Example(), raw)
  {
    hide ParsePairingInfo, Example;
  }

  lemma OrElseDefault<T>(o: Option<T>, d: T)
    ensures o.None? ==> OrElse(o, d) == d
    ensures o.Some? ==> OrElse(o, d) == o.value
  {
  }

  // ---- two invites ----

  /** The two nodes pair twice, the second time when the joiner is clustered. */
  lemma NodesPairTwice() returns (moves: seq<SystemMove>)
    ensures IsHash(Example().sha256)
    ensures var n := Nodes(Example(), ShowInfo(INVITER.info), ShowInfo(JOINER.info));
      && SystemRun(n, moves).clustered && LaneOf(SystemRun(n, moves), "a").joinerPinned.Some?
      && LaneOf(SystemRun(n, moves), "b").joinerPinned.None? && LaterPins(n, moves, "b")
  {
    hide *;
    var n := Nodes(Example(), ShowInfo(INVITER.info), ShowInfo(JOINER.info));
    ExampleIsLawful();
    NodesReach(n, "a");
    NodesReach(n, "b");
    assert "a" != "b" by { assert "a"[0] != "b"[0]; }
    moves := TwoInvitesPin(n, "a", "b");
  }

  lemma NodesReach(n: Nodes, id: string)
    requires n == Nodes(Example(), ShowInfo(INVITER.info), ShowInfo(JOINER.info)) && id != ""
    ensures WorldOk(WorldOf(n, id)) && BothSound(WorldOf(n, id))
  {
    ExampleIsLawful();
    OwnInfos();
    InfoFits();
    hide PemOf, DerOf, TextLaws, HashLaws, KeyLaws, InfoLaws, ParsePairingInfo, Example, ShowInfo;
  }

  // ---- transcripts ----

  /** The premises of the agreement lemmas are met, for every PIN. */
  lemma TranscriptsAgree(pin: string) returns (asked: seq<Input>, last: Input, toPeer: seq<Input>)
    requires IsValidPin(pin)
    ensures IsHash(Example().sha256)
    ensures HonestTranscript.PremisesMet(Example(), ShowInfo(INVITER.info), asked, last, ShowInfo(JOINER.info), toPeer,
                                         STILL)
  {
    hide *;
    ExampleIsLawful();
    OwnInfos();
    InfosAreJson();
    asked, last, toPeer :=
      HonestTranscript.PremisesAreMet(Example(), ShowInfo(INVITER.info), ShowInfo(JOINER.info), NoobFromPin(pin),
                                      STILL);
  }

  lemma InfosAreJson()
    ensures JsonText.IsJson(ShowInfo(INVITER.info)) && JsonText.IsJson(ShowInfo(JOINER.info)) && FreshOk(STILL)
  {
    ShowsInfo();
    ExampleIsLawful();
    hide HashLaws, KeyLaws, InfoLaws, Example, ShowInfo, PemOf, DerOf;
    assert JsonText.IsJson(Example().showInfo(INVITER.info)) && JsonText.IsJson(Example().showInfo(JOINER.info));
  }

  // ---- lost pins ----

  /** Every UUID that fits one octet a character is carried by a certificate, the lost ones included. */
  lemma CertificateHas(id: string)
    requires IsLatin(id)
    ensures ClusterDir.UuidOf(Example(), PemOf(DerOf(id))) == Some(id)
  {
    CertificateOf(id);
    hide Example, PemOf, DerOf, PemToDer;
  }
}
