/**
 * What each machine answers to each message, in figures: the type of the reply, what its fields read back as, and
 * the state that is kept, for any message at any state.
 */
module Replies {
  import opened Octets
  import opened Decimal
  import opened Negotiation
  import opened Kdf
  import opened JsonText
  import opened Primitives
  import opened Protocol
  import opened Exchange
  import opened Invariants

  // ---- shapes ----

  /** The number of a state in messages. */
  predicate Numbered(s: State, n: int) {
    match s case Unregistered => n == 0 case Waiting => n == 1 case OobReceived => n == 2 case Reconnecting => n == 3
            case Registered => n == 4
  }

  /** An error notification: Type 0 with this code and text, and the same for the caller. */
  predicate Refuses(r: Reaction, code: int, info: string) {
    && r.Reacted? && r.outcome.done && !r.outcome.success
    && r.outcome.error == Some(info) && r.outcome.errorCode == Some(code)
    && r.outcome.send.Some?
    && var w := r.outcome.send.value;
       w.type_ == Some(0) && w.errorCode == Some(code) && w.errorInfo == Some(info) && w.eap.None?
  }

  /** A message of this type, after which the conversation goes on. */
  predicate Answers(r: Reaction, t: int) {
    && r.Reacted? && !r.outcome.done && !r.outcome.success && r.outcome.error.None? && r.outcome.errorCode.None?
    && r.outcome.send.Some? && r.outcome.send.value.type_ == Some(t)
    && r.outcome.send.value.errorCode.None? && r.outcome.send.value.eap.None?
  }

  /** The result that ends a conversation. */
  predicate Ends(r: Reaction, kind: string, success: bool) {
    && r.Reacted? && r.outcome.done && r.outcome.success == success
    && r.outcome.error.None? && r.outcome.errorCode.None? && r.outcome.send.Some?
    && var w := r.outcome.send.value; w.eap == Some(kind) && w.type_.None? && w.errorCode.None?
  }

  function Reply(r: Reaction): Wire {
    if r.Reacted? && r.outcome.send.Some? then r.outcome.send.value else NO_WIRE
  }

  /** The field reads back as this text. */
  predicate Reads(k: Primitives, field: Option<string>, text: string) {
    field.Some? && k.parseString(field.value) == Some(text)
  }

  /** The field reads back as these octets. */
  predicate ReadsOctets(k: Primitives, field: Option<string>, b: Bytes) {
    field.Some? && k.parseString(field.value).Some? && k.unb64(k.parseString(field.value).value) == Some(b)
  }

  /** The number or the numbers that a field holds, if it does. */
  function IntIn(k: Primitives, field: Option<string>): int {
    if field.Some? && k.parseInt(field.value).Some? then k.parseInt(field.value).value else -1
  }

  function IntsIn(k: Primitives, field: Option<string>): seq<int> {
    if field.Some? && k.parseInts(field.value).Some? then k.parseInts(field.value).value else []
  }

  function TextIn(k: Primitives, field: Option<string>): Option<string> {
    if field.Some? then k.parseString(field.value) else None
  }

  function KeyIn(k: Primitives, field: Option<string>): Option<Jwk> {
    if field.Some? then k.parseJwk(field.value) else None
  }

  predicate HasOctets(k: Primitives, field: Option<string>) {
    field.Some? && k.parseString(field.value).Some? && k.unb64(k.parseString(field.value).value).Some?
  }

  lemma QuotedReads(k: Primitives, text: string, b: Bytes)
    requires TextLaws(k)
    ensures Reads(k, Some(k.quote(text)), text) && ReadsOctets(k, Some(Quoted(k, b)), b)
  {
  }

  /** Keys are derived from the secret, the peer's nonce, the server's nonce and the Noob, in this order. */
  lemma DerivedInFull(k: Primitives, m: Method)
    requires IsHash(k.sha256)
    ensures var keys := DerivedOf(k, m);
      && keys.kms == k.sha256(Hashed(8, m.z, m.np, m.ns, m.noob))
      && keys.kmp == k.sha256(Hashed(9, m.z, m.np, m.ns, m.noob))
      && keys.kz == k.sha256(Hashed(10, m.z, m.np, m.ns, m.noob))
  {
    KeysInFull(k.sha256, m.z, m.np, m.ns, m.noob);
    hide CompletionKeys, Hashed;
  }

  // ---- the peer ----

  /** Type 1: the state's number and the NAI, and the PeerId once there is one and the peer has left Unregistered. */
  lemma PeerShowsItself(k: Primitives, p: PeerState, w: Wire, f: Fresh)
    requires HashLaws(k) && TextLaws(k) && w.eap.None? && w.errorCode.None? && w.type_ == Some(1)
    ensures var step := PeerReceive(k, p, Message(w), f);
      && step.p == p && Answers(step.r, 1)
      && Reply(step.r).peerState.Some? && Numbered(p.state, Reply(step.r).peerState.value)
      && Reads(k, Reply(step.r).nai, p.m.nai)
      && (if p.state != Unregistered && p.m.peerId != "" then Reads(k, Reply(step.r).peerId, p.m.peerId)
          else Reply(step.r).peerId.None?)
  {
    PeerDispatch(k, p, w, f);
    hide TextLaws, HashLaws, PeerReceive, PeerDiscovery;
  }

  /** Over any run: what a peer shows of itself is what the run has made of it. */
  lemma PeerShowsItsRun(k: Primitives, info: string, inputs: seq<Input>, w: Wire, f: Fresh)
    requires HashLaws(k) && TextLaws(k) && w.eap.None? && w.errorCode.None? && w.type_ == Some(1)
    ensures var p := PeerRun(k, NewPeer(info), inputs);
      var shown := Reply(PeerReceive(k, p, Message(w), f).r);
      && shown.peerState in {Some(0), Some(1), Some(2), Some(4)}
      && (shown.peerState == Some(0) <==> p.state == Unregistered)
      && (shown.peerState == Some(1) <==> p.state == Waiting)
      && (shown.peerState == Some(2) <==> p.state == OobReceived)
      && (shown.peerState == Some(4) <==> p.state == Registered)
      && Reads(k, shown.nai, p.m.nai)
      && (p.state != Unregistered && p.m.peerId != "" <==> shown.peerId.Some?)
      && (shown.peerId.Some? ==> Reads(k, shown.peerId, p.m.peerId))
  {
    PeerRunInv(k, info, inputs);
    PeerShowsItself(k, PeerRun(k, NewPeer(info), inputs), w, f);
    hide TextLaws, PeerReceive, PeerRun, NewPeer;
  }

  /** Type 2: refused for want of a PeerId, a version, a suite or a direction, in this order; else answered. */
  lemma PeerChoosesInFull(k: Primitives, p: PeerState, w: Wire, f: Fresh)
    requires HashLaws(k) && TextLaws(k) && w.eap.None? && w.errorCode.None? && w.type_ == Some(2)
    ensures var step := PeerReceive(k, p, Message(w), f);
      var versions := IntsIn(k, w.vers);
      var suites := IntsIn(k, w.cryptosuites);
      var dirs := IntIn(k, w.dirs);
      if TextIn(k, w.peerId).None? then Refuses(step.r, 1003, "bad PeerId") && step.p == p
      else if MaxCommon(versions, p.versions).None? then Refuses(step.r, 1003, "no common version")
      else if FirstSupported(suites, p.cryptosuites).None? then Refuses(step.r, 1003, "no common cryptosuite")
      else if ChooseDir(dirs, p.preferDir).None? then Refuses(step.r, 1003, "no mutual OOB direction")
      else
        var id := TextIn(k, w.peerId).value;
        && Answers(step.r, 2) && Reads(k, Reply(step.r).peerId, id)
        && Reply(step.r).verp == Some(ShowInt(MaxCommon(versions, p.versions).value))
        && Reply(step.r).cryptosuitep == Some(ShowInt(FirstSupported(suites, p.cryptosuites).value))
        && Reply(step.r).dirp == Some(ShowInt(ChooseDir(dirs, p.preferDir).value))
        && Reply(step.r).peerInfo == Some(p.peerInfo)
        && step.p.m.peerId == id && step.p.csp == FirstSupported(suites, p.cryptosuites).value
        && step.p.dirp == ChooseDir(dirs, p.preferDir).value && step.p.m.suite == SuiteFromId(step.p.csp)
        && step.p.state == p.state
        && step.p.m.nai == (if TextIn(k, w.newNai).Some? then TextIn(k, w.newNai).value else p.m.nai)
        && Reads(k, Some(step.p.m.inp.nai), step.p.m.nai)
  {
    if TextIn(k, w.peerId).Some? {
      QuotedReads(k, TextIn(k, w.peerId).value, []);
    }
    PeerDispatch(k, p, w, f);
    QuotedReads(k, PeerNegotiation(k, p, w).p.m.nai, []);
    hide TextLaws, HashLaws, PeerReceive, Reads, MaxCommon, FirstSupported, ChooseDir, ShowInt, SuiteFromId;
  }

  /**
   * Type 3: refused for want of a key or a nonce, or without a secret; else answered with the peer's own, at
   * Waiting.
   */
  lemma PeerKeysInFull(k: Primitives, p: PeerState, w: Wire, f: Fresh)
    requires HashLaws(k) && TextLaws(k) && w.eap.None? && w.errorCode.None? && w.type_ == Some(3)
    ensures var step := PeerReceive(k, p, Message(w), f);
      if KeyIn(k, w.pks).None? then Refuses(step.r, 1003, "bad PKs") && step.p == p
      else if !HasOctets(k, w.ns) then Refuses(step.r, 1003, "bad Ns") && step.p == p
      else if p.m.suite.None? then step.r.Aborted? && step.p == p
      else
        var own := KeyPair(p.m.suite.value, f.secret);
        var z := k.sharedSecret(own, KeyIn(k, w.pks).value);
        if z.None? then Refuses(step.r, 1003, "ECDHE failure") && step.p == p
        else
          && Answers(step.r, 3) && Reads(k, Reply(step.r).peerId, p.m.peerId)
          && ReadsOctets(k, Reply(step.r).np, f.nonce)
          && KeyIn(k, Reply(step.r).pkp) == Some(k.publicKey(own))
          && step.p.state == Waiting && step.p.m.z == z.value && step.p.m.np == f.nonce
          && ReadsOctets(k, w.ns, step.p.m.ns) && step.p.m.keypair == Some(own)
  {
    if p.m.suite.Some? {
      KeyReads(k, k.publicKey(KeyPair(p.m.suite.value, f.secret)));
    }
    QuotedReads(k, p.m.peerId, f.nonce);
    OctetsParse(k, w.ns);
    PeerDispatch(k, p, w, f);
    hide TextLaws, HashLaws, PeerReceive, Reads, ReadsOctets, HasOctets, ParseBytes;
  }

  lemma KeyReads(k: Primitives, j: Jwk)
    requires TextLaws(k)
    ensures k.parseJwk(k.showJwk(j)) == Some(j)
  {
  }

  lemma OctetsParse(k: Primitives, field: Option<string>)
    ensures ParseBytes(k, field).Some? <==> HasOctets(k, field)
    ensures ParseBytes(k, field).Some? ==> ReadsOctets(k, field, ParseBytes(k, field).value)
    ensures forall b :: ReadsOctets(k, field, b) <==> ParseBytes(k, field) == Some(b)
  {
  }

  /** Types 4 and 5: its PeerId, and the NoobId once it has a Noob. */
  lemma PeerWaitsInFull(k: Primitives, p: PeerState, w: Wire, f: Fresh)
    requires IsHash(k.sha256) && TextLaws(k) && w.eap.None? && w.errorCode.None? && w.type_ in {Some(4), Some(5)}
    ensures var step := PeerReceive(k, p, Message(w), f);
      && step.p == p
      && if w.type_ == Some(5) && p.m.noob == [] then Refuses(step.r, 1003, "no OOB received")
         else
           && Answers(step.r, w.type_.value) && Reads(k, Reply(step.r).peerId, p.m.peerId)
           && if w.type_ == Some(5) then ReadsOctets(k, Reply(step.r).noobId, p.m.noobId)
              else Reply(step.r).noobId.None?
  {
    QuotedReads(k, p.m.peerId, p.m.noobId);
    hide TextLaws, PeerNegotiation, PeerKeyExchange, PeerCompletion, PeerDiscovery, PeerResult;
  }

  /**
   * Type 6: refused without a Noob, for another NoobId and for MACs that differ, in this order; else answered with
   * MACp.
   */
  lemma PeerConfirmsInFull(k: Primitives, p: PeerState, w: Wire, f: Fresh)
    requires HashLaws(k) && TextLaws(k) && w.eap.None? && w.errorCode.None? && w.type_ == Some(6)
    ensures var step := PeerReceive(k, p, Message(w), f);
      var keys := DerivedOf(k, p.m);
      if p.m.noob == [] then Refuses(step.r, 1003, "no OOB processed") && step.p == p
      else if !(ReadsOctets(k, w.noobId, p.m.noobId) || (p.m.noobId == [] && ParseBytes(k, w.noobId).None?)) then
        Refuses(step.r, 2003, "unrecognized NoobId") && step.p == p
      else
        && step.p == p.(m := p.m.(keym := Some(keys)))
        && if !ReadsOctets(k, w.macs, Mac(k, keys.kms, 2, p.m.inp)) then
             Refuses(step.r, 4001, "MACs verification failed")
           else
             && Answers(step.r, 6) && Reads(k, Reply(step.r).peerId, p.m.peerId)
             && ReadsOctets(k, Reply(step.r).macp, Mac(k, keys.kmp, 1, p.m.inp))
  {
    var keys := DerivedOf(k, p.m);
    assert |Mac(k, keys.kms, 2, p.m.inp)| == 32;
    QuotedReads(k, p.m.peerId, Mac(k, keys.kmp, 1, p.m.inp));
    OctetsParse(k, w.noobId);
    OctetsParse(k, w.macs);
    PeerDispatch(k, p, w, f);
    hide TextLaws, HashLaws, PeerReceive, Reads, ReadsOctets, ParseBytes, Mac, CompletionKeys;
  }

  /** A result comes before everything else in a message: success registers in any state, anything else only ends. */
  lemma PeerResultInFull(k: Primitives, p: PeerState, w: Wire, f: Fresh)
    requires IsHash(k.sha256) && w.eap.Some?
    ensures var step := PeerReceive(k, p, Message(w), f);
      && step.r.Reacted? && step.r.outcome.done && step.r.outcome.send.None? && step.r.outcome.error.None?
      && (step.r.outcome.success <==> w.eap == Some("success"))
      && if w.eap != Some("success") then step.p == p
         else
           && step.p.state == Registered && step.p.m == p.m && step.p.assoc.Some?
           && step.p.assoc.value.peerId == p.m.peerId && step.p.assoc.value.nai == p.m.nai
           && step.p.assoc.value.cryptosuitep == p.csp % 256
           && (p.m.keym.Some? ==> step.p.assoc.value.kz == p.m.keym.value.kz)
           && (p.m.keym.None? ==> step.p.assoc.value.kz == seq(32, _ => 0))
  {
    hide PeerNegotiation, PeerKeyExchange, PeerDiscovery, PeerNoobId, PeerCompletion;
    assert ZEROS_32 == seq(32, _ => 0);
  }

  /** What is no message, is a notification, or has another type. */
  lemma PeerRestInFull(k: Primitives, p: PeerState, blob: Blob, f: Fresh)
    requires IsHash(k.sha256)
    requires blob.Message? ==> blob.wire.eap.None? && (blob.wire.errorCode.Some? || !Ordered(blob.wire.type_))
    ensures var step := PeerReceive(k, p, blob, f);
      && step.p == p
      && if !blob.Message? then Refuses(step.r, 1003, "malformed JSON")
         else if blob.wire.errorCode.Some? then Reports(step.r, blob.wire)
         else Refuses(step.r, 1003, "unexpected type")
  {
    hide PeerNegotiation, PeerKeyExchange, PeerDiscovery, PeerNoobId, PeerCompletion, PeerResult, ShowInt;
  }

  predicate Ordered(t: Option<int>) {
    t.Some? && 1 <= t.value <= 6
  }

  /** A notification ends the conversation, unanswered, with its code and its text. */
  predicate Reports(r: Reaction, w: Wire) {
    && w.errorCode.Some? && r.Reacted? && r.outcome.done && !r.outcome.success && r.outcome.send.None?
    && r.outcome.errorCode == w.errorCode
    && r.outcome.error == Some("peer error " + ShowInt(w.errorCode.value)
                               + if w.errorInfo.Some? && w.errorInfo.value != "" then ": " + w.errorInfo.value else "")
  }

  // ---- the server ----

  /** The PeerId that the server has assigned is the one in the message. */
  predicate Addressed(k: Primitives, s: ServerState, w: Wire) {
    s.m.peerId == "" || Reads(k, w.peerId, s.m.peerId)
  }

  /** The Completion Exchange begins: one side has the OOB and the other is at Waiting, or both have it. */
  predicate Begins(s: State, peerState: int) {
    (s == OobReceived && peerState in {1, 2}) || (s == Waiting && peerState == 2)
  }

  /** Type 1: which exchange it opens, by both states. */
  lemma ServerOpensInFull(k: Primitives, s: ServerState, w: Wire, f: Fresh)
    requires HashLaws(k) && TextLaws(k) && w.errorCode.None? && w.type_ == Some(1)
    ensures var step := ServerReceive(k, s, Message(w), f);
      var theirs := if w.peerState.Some? then w.peerState.value else 0;
      && step.s.state == s.state && step.s.peerState == theirs && OpensAs(k, s, theirs, step, step)
      && (!Begins(s.state, theirs) && !(s.state == Waiting && theirs == 1)
          && (s.state == Unregistered || theirs == 0) ==>
            && Answers(step.r, 2)
            && step.s.m.peerId == k.b64(f.peerId) && Reads(k, Reply(step.r).peerId, step.s.m.peerId)
            && Reply(step.r).vers == Some(ShowInts(s.versions))
            && Reply(step.r).cryptosuites == Some(ShowInts(s.cryptosuites))
            && Reply(step.r).dirs == Some(ShowInt(s.dirs)) && Reply(step.r).serverInfo == Some(s.serverInfo))
  {
    ServerTurns(k, s, w, f);
    OpensInFull(k, s, w, f);
    hide TextLaws, HashLaws, ServerReceive, ServerDiscovery, BuildNegotiation, ShowInts, ShowInt, Reads;
    hide Answers, Refuses;
    hide ParseStr;
  }

  /** Which handler takes which type. */
  lemma ServerTurns(k: Primitives, s: ServerState, w: Wire, f: Fresh)
    requires IsHash(k.sha256) && w.errorCode.None?
    ensures w.type_ == Some(1) ==> ServerReceive(k, s, Message(w), f) == ServerDiscovery(k, s, w, f)
    ensures w.type_ == Some(2) ==> ServerReceive(k, s, Message(w), f) == ServerNegotiation(k, s, w, f)
    ensures w.type_ == Some(3) ==> ServerReceive(k, s, Message(w), f) == ServerKeyExchange(k, s, w)
    ensures w.type_ == Some(5) ==> ServerReceive(k, s, Message(w), f) == ServerNoobId(k, s, w)
    ensures w.type_ == Some(6) ==> ServerReceive(k, s, Message(w), f) == ServerCompletion(k, s, w)
  {
    hide ServerDiscovery, ServerNegotiation, ServerKeyExchange, ServerNoobId, ServerCompletion;
  }

  /** Which message opens which exchange; `offer` is the step that makes an offer. */
  predicate OpensAs(k: Primitives, s: ServerState, theirs: int, step: ServerStep, offer: ServerStep) {
    if Begins(s.state, theirs) then
      if s.m.noob == [] then Refuses(step.r, 1003, "no OOB processed")
      else
        && Answers(step.r, if theirs == 2 then 5 else 6) && Reads(k, Reply(step.r).peerId, s.m.peerId)
        && (theirs == 2 ==> Reply(step.r).noobId.None? && Reply(step.r).macs.None?)
    else if s.state == Waiting && theirs == 1 then Answers(step.r, 4) && Reads(k, Reply(step.r).peerId, s.m.peerId)
    else if s.state == Unregistered || theirs == 0 then step == offer
    else Refuses(step.r, 1003, "state mismatch")
  }

  lemma OpensInFull(k: Primitives, s: ServerState, w: Wire, f: Fresh)
    requires IsHash(k.sha256) && TextLaws(k)
    ensures var step := ServerDiscovery(k, s, w, f);
      var theirs := if w.peerState.Some? then w.peerState.value else 0;
      OpensAs(k, s, theirs, step, BuildNegotiation(k, ServerNoted(k, s, w), f))
      && step.s.state == s.state && step.s.peerState == theirs
  {
    CompletionStarts(k, ServerNoted(k, s, w));
    WaitingReply(k, ServerNoted(k, s, w).m);
    FailRefuses("state mismatch");
    Branches(k, s, w, f);
    hide TextLaws, ServerDiscovery, ServerNoted, Reads, BuildNegotiation, StartCompletion, Refuses, Answers;
    hide Reply, Fail, Sending;
  }

  lemma Branches(k: Primitives, s: ServerState, w: Wire, f: Fresh)
    requires IsHash(k.sha256)
    ensures var noted := ServerNoted(k, s, w);
      ServerDiscovery(k, s, w, f) ==
        if Begins(s.state, noted.peerState) then StartCompletion(k, noted)
        else if s.state == Waiting && noted.peerState == 1 then
          ServerStep(noted, Sending(NO_WIRE.(type_ := Some(4), peerId := Some(k.quote(noted.m.peerId)))))
        else if s.state == Unregistered || noted.peerState == 0 then BuildNegotiation(k, noted, f)
        else ServerStep(noted, Fail("state mismatch"))
  {
    hide BuildNegotiation, StartCompletion, Fail, Sending, ParseStr;
  }

  lemma WaitingReply(k: Primitives, m: Method)
    requires TextLaws(k)
    ensures var r := Sending(NO_WIRE.(type_ := Some(4), peerId := Some(k.quote(m.peerId))));
      Answers(r, 4) && Reads(k, Reply(r).peerId, m.peerId)
  {
    QuotedReads(k, m.peerId, []);
    hide TextLaws, Reads;
  }

  lemma FailRefuses(info: string)
    ensures Refuses(Fail(info), 1003, info)
  {
  }

  lemma CompletionStarts(k: Primitives, s: ServerState)
    requires IsHash(k.sha256) && TextLaws(k)
    ensures var step := StartCompletion(k, s);
      && step.s.state == s.state && step.s.peerState == s.peerState
      && if s.m.noob == [] then Refuses(step.r, 1003, "no OOB processed")
         else
           && Answers(step.r, if s.peerState == 2 then 5 else 6) && Reads(k, Reply(step.r).peerId, s.m.peerId)
           && (s.peerState == 2 ==> Reply(step.r).noobId.None? && Reply(step.r).macs.None?)
  {
    QuotedReads(k, s.m.peerId, []);
    hide TextLaws, Mac, CompletionKeys, Reads;
  }

  /** The server once it has noted what a Type 1 shows. */
  function ServerNoted(k: Primitives, s: ServerState, w: Wire): ServerState {
    var nai := OrElse(ParseStr(k, w.nai), s.m.nai);
    s.(peerState := OrElse(w.peerState, 0), m := s.m.(nai := if nai == "" then DEFAULT_NAI else nai))
  }

  /** The NAI is the one the peer shows, or else the one known before, and never empty. */
  lemma ServerNotesNai(k: Primitives, s: ServerState, w: Wire, f: Fresh)
    requires IsHash(k.sha256) && w.errorCode.None? && w.type_ == Some(1)
    ensures var nai := ServerReceive(k, s, Message(w), f).s.m.nai;
      var shown := TextIn(k, w.nai);
      && (shown.Some? && shown.value != "" ==> nai == shown.value)
      && (shown.None? && s.m.nai != "" ==> nai == s.m.nai)
      && (shown == Some("") || (shown.None? && s.m.nai == "") ==> nai == "noob@eap-noob.arpa")
  {
    hide ServerNegotiation, ServerKeyExchange, ServerNoobId, ServerCompletion, ShowInts, ShowInt, Mac, CompletionKeys;
  }

  /** Type 2: refused under another PeerId, or for a version, suite or direction that was not offered, in this order. */
  lemma ServerAgreesInFull(k: Primitives, s: ServerState, w: Wire, f: Fresh)
    requires IsHash(k.sha256) && TextLaws(k) && w.errorCode.None? && w.type_ == Some(2)
    ensures var step := ServerReceive(k, s, Message(w), f);
      var verp := IntIn(k, w.verp);
      var csp := IntIn(k, w.cryptosuitep);
      var dirp := IntIn(k, w.dirp);
      if !Addressed(k, s, w) then Refuses(step.r, 1003, "PeerId mismatch") && step.s == s
      else if verp !in s.versions then Refuses(step.r, 1003, "unsupported version") && step.s == s
      else if csp !in s.cryptosuites || csp % 256 !in {1, 2} then
        Refuses(step.r, 1003, "unsupported cryptosuite") && step.s == s
      else if !DirAccepted(dirp, s.dirs) then Refuses(step.r, 1003, "no mutual OOB direction") && step.s == s
      else
        var own := KeyPair(if csp % 256 == 1 then X25519 else P256, f.secret);
        && Answers(step.r, 3) && Reads(k, Reply(step.r).peerId, s.m.peerId) && ReadsOctets(k, Reply(step.r).ns, f.nonce)
        && KeyIn(k, Reply(step.r).pks) == Some(k.publicKey(own))
        && step.s.csp == csp && step.s.dirp == dirp
        && step.s.m.suite == Some(own.suite) && step.s.m.keypair == Some(own)
        && step.s.m.ns == f.nonce && step.s.state == s.state && Reads(k, Some(step.s.m.inp.nai), s.m.nai)
  {
    ServerTurns(k, s, w, f);
    hide TextLaws, ServerReceive, DirAccepted, ReadsOctets, BuildKeyExchange, Answers, Refuses, Fail;
  }

  /**
   * Type 3: refused under another PeerId or for want of a key, a secret or a nonce, in this order; else the end,
   * at Waiting.
   */
  lemma ServerKeysInFull(k: Primitives, s: ServerState, w: Wire, f: Fresh)
    requires IsHash(k.sha256) && w.errorCode.None? && w.type_ == Some(3)
    ensures var step := ServerReceive(k, s, Message(w), f);
      if !Addressed(k, s, w) then Refuses(step.r, 1003, "PeerId mismatch") && step.s == s
      else if KeyIn(k, w.pkp).None? then Refuses(step.r, 1003, "bad PKp") && step.s == s
      else if s.m.keypair.None? then step.r.Aborted? && step.s == s
      else
        var z := k.sharedSecret(s.m.keypair.value, KeyIn(k, w.pkp).value);
        if z.None? then Refuses(step.r, 1003, "ECDHE failure") && step.s == s
        else if TextIn(k, w.np).None? then Refuses(step.r, 1003, "bad Np") && step.s == s
        else if !HasOctets(k, w.np) then Refuses(step.r, 1003, "bad Np encoding") && step.s == s
        else
          && Ends(step.r, "failure", false) && step.s.state == Waiting && step.s.m.z == z.value
          && ReadsOctets(k, w.np, step.s.m.np) && step.s.m.keym == s.m.keym && step.s.m.noob == s.m.noob
  {
    ServerTurns(k, s, w, f);
    hide ServerReceive;
  }

  /**
   * Type 5: refused under another PeerId and for another NoobId; else answered with MACs under keys made on the
   * spot.
   */
  lemma ServerMacsInFull(k: Primitives, s: ServerState, w: Wire, f: Fresh)
    requires IsHash(k.sha256) && TextLaws(k) && w.errorCode.None? && w.type_ == Some(5)
    ensures var step := ServerReceive(k, s, Message(w), f);
      var keys := DerivedOf(k, s.m);
      if !Addressed(k, s, w) then Refuses(step.r, 1003, "PeerId mismatch") && step.s == s
      else if !(ReadsOctets(k, w.noobId, s.m.noobId) || (s.m.noobId == [] && !HasOctets(k, w.noobId))) then
        Refuses(step.r, 2003, "unrecognized NoobId") && step.s == s
      else
        && Answers(step.r, 6) && Reads(k, Reply(step.r).peerId, s.m.peerId)
        && ReadsOctets(k, Reply(step.r).noobId, s.m.noobId)
        && ReadsOctets(k, Reply(step.r).macs, Mac(k, keys.kms, 2, s.m.inp))
        && step.s == s.(m := s.m.(keym := Some(keys)))
  {
    QuotedReads(k, s.m.peerId, s.m.noobId);
    QuotedReads(k, "", Mac(k, DerivedOf(k, s.m).kms, 2, s.m.inp));
    OctetsParse(k, w.noobId);
    ServerTurns(k, s, w, f);
    hide TextLaws, ServerReceive, ReadsOctets, HasOctets, ParseBytes, Mac, CompletionKeys;
  }

  /** Type 6: refused under another PeerId and for a MACp that differs; else the end, with an association. */
  lemma ServerRegistersInFull(k: Primitives, s: ServerState, w: Wire, f: Fresh)
    requires HashLaws(k) && w.errorCode.None? && w.type_ == Some(6)
    ensures var step := ServerReceive(k, s, Message(w), f);
      if !Addressed(k, s, w) then Refuses(step.r, 1003, "PeerId mismatch") && step.s == s
      else if s.m.keym.None? then step.r.Aborted? && step.s == s
      else if !ReadsOctets(k, w.macp, Mac(k, s.m.keym.value.kmp, 1, s.m.inp)) then
        Refuses(step.r, 4001, "MACp verification failed") && step.s == s
      else
        && Ends(step.r, "success", true) && step.s.state == Registered && step.s.m == s.m && step.s.assoc.Some?
        && step.s.assoc.value.peerId == s.m.peerId && step.s.assoc.value.nai == s.m.nai
        && step.s.assoc.value.cryptosuitep == s.csp % 256 && step.s.assoc.value.kz == s.m.keym.value.kz
  {
    if s.m.keym.Some? {
      assert |Mac(k, s.m.keym.value.kmp, 1, s.m.inp)| == 32;
    }
    OctetsParse(k, w.macp);
    ServerTurns(k, s, w, f);
    hide HashLaws, ServerReceive, ReadsOctets, HasOctets, ParseBytes, Mac;
  }

  /** Type 4 ends the conversation; what is no message, is a notification, or has another type is as for the peer. */
  lemma ServerRestInFull(k: Primitives, s: ServerState, blob: Blob, f: Fresh)
    requires IsHash(k.sha256)
    requires blob.Message? ==> blob.wire.errorCode.Some? || !Ordered(blob.wire.type_) || blob.wire.type_ == Some(4)
    ensures var step := ServerReceive(k, s, blob, f);
      && step.s == s
      && if !blob.Message? then Refuses(step.r, 1003, "malformed JSON")
         else if blob.wire.errorCode.Some? then Reports(step.r, blob.wire)
         else if blob.wire.type_ == Some(4) then Ends(step.r, "failure", false)
         else Refuses(step.r, 1003, "unexpected type")
  {
    hide ServerDiscovery, ServerNegotiation, ServerKeyExchange, ServerNoobId, ServerCompletion, ShowInt;
  }

  // ---- the Noob ----

  /**
   * Both machines take a Noob of sixteen octets at Waiting, if the direction is from the server; nothing else
   * changes.
   */
  lemma NoobTakenInFull(k: Primitives, s: ServerState, p: PeerState, noob: Bytes)
    requires IsHash(k.sha256) && TextLaws(k)
    ensures ServerOob(k, s, noob).Ok? <==> s.state == Waiting && s.dirp in {2, 3} && |noob| == 16
    ensures ServerOob(k, s, noob).Ok? ==>
              var s' := ServerOob(k, s, noob).value;
              && s' == s.(m := s.m.(noob := s'.m.noob, noobId := s'.m.noobId, inp := s'.m.inp))
              && HoldsNoob(k, s'.m, s.m, noob)
    ensures PeerOob(k, p, noob).Ok? <==> p.state == Waiting && p.dirp in {2, 3} && |noob| == 16
    ensures PeerOob(k, p, noob).Ok? ==>
              var p' := PeerOob(k, p, noob).value;
              && p' == p.(state := OobReceived, m := p.m.(noob := p'.m.noob, noobId := p'.m.noobId, inp := p'.m.inp))
              && HoldsNoob(k, p'.m, p.m, noob)
  {
    QuotedReads(k, "", noob);
    hide TextLaws, NoobIdOf;
  }

  /** The Noob is held, it is the last MAC input, and the NoobId is made of it. */
  predicate HoldsNoob(k: Primitives, m: Method, before: Method, noob: Bytes)
    requires IsHash(k.sha256)
  {
    && m.noob == noob && ReadsOctets(k, Some(m.inp.noob), noob) && m.inp.(noob := before.inp.noob) == before.inp
    && m.noobId == NoobIdOf(k, m.inp.noob)
  }

  // ---- new machines ----

  /** What the two sides begin with: the server offers P-256 before X25519 and the direction from it to the peer. */
  lemma NewMachinesInFull(info: string)
    ensures var s := NewServer(info);
      && s.versions == [1] && s.cryptosuites == [2, 1] && s.dirs == 2 && s.state == Unregistered && s.serverInfo == info
      && s.m.peerId == "" && s.m.nai == "" && s.m.noob == [] && s.m.noobId == seq(16, _ => 0)
      && s.m.keypair.None? && s.m.keym.None? && s.assoc.None?
    ensures var p := NewPeer(info);
      && p.versions == [1] && p.cryptosuites == [1, 2] && p.preferDir == 2 && p.state == Unregistered
      && p.peerInfo == info
      && p.m.peerId == "" && p.m.nai == "noob@eap-noob.arpa" && p.m.noob == [] && p.m.noobId == seq(16, _ => 0)
      && p.m.keypair.None? && p.m.keym.None? && p.assoc.None?
    ensures ShowInts([1]) == "[1]" && ShowInts([2, 1]) == "[2,1]" && ShowInt(2) == "2"
  {
    assert ZEROS_16 == seq(16, _ => 0);
    assert ShowInt(1) == "1" && ShowInt(2) == "2";
    assert Printed([1]) == ["1"] && Printed([2, 1]) == ["2", "1"] && ["2", "1"][1..] == ["1"];
    hide ShowInt;
    assert Joined(["1"]) == "1" && Joined(["2", "1"]) == "2,1";
  }
}
