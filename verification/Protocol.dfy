/**
 * The EAP-NOOB Server and Peer of crates/pair-pairing/src/machine.rs as step functions: a state, one
 * inbound message and this step's random values give the next state and a reaction. The classes of
 * `Machines` are proved equal to these functions, and every claim about runs is about them.
 */
module Protocol {
  import opened Octets
  import opened Decimal
  import opened Negotiation
  import opened Kdf
  import opened MacArray
  import opened Primitives

  const INVALID_DATA := 1003
  const UNRECOGNIZED_OOB_MSG_ID := 2003
  const HMAC_VERIFICATION_FAILED := 4001

  const DEFAULT_NAI := "noob@eap-noob.arpa"

  predicate IsWrongPinCode(code: int) {
    code == UNRECOGNIZED_OOB_MSG_ID || code == HMAC_VERIFICATION_FAILED
  }

  // ---- messages ----

  /** One message; the string-valued fields but the last two are verbatim JSON text. */
  datatype Wire = Wire(
    type_: Option<int>, peerState: Option<int>, peerId: Option<string>, nai: Option<string>, newNai: Option<string>,
    vers: Option<string>, verp: Option<string>, cryptosuites: Option<string>, cryptosuitep: Option<string>,
    dirs: Option<string>, dirp: Option<string>, serverInfo: Option<string>, peerInfo: Option<string>,
    pks: Option<string>, pkp: Option<string>, ns: Option<string>, np: Option<string>,
    noobId: Option<string>, macs: Option<string>, macp: Option<string>,
    errorCode: Option<int>, errorInfo: Option<string>, eap: Option<string>)

  const NO_WIRE := Wire(None, None, None, None, None, None, None, None, None, None, None, None, None,
                        None, None, None, None, None, None, None, None, None, None)

  /** Received bytes: none at all, bytes that are no message (but may show a `Type`), or a message. */
  datatype Blob = Empty | Garbage(firstType: Option<int>) | Message(wire: Wire)

  /** What one step may draw at random. */
  datatype Fresh = Fresh(peerId: Bytes, secret: Bytes, nonce: Bytes)

  predicate FreshOk(f: Fresh) {
    |f.peerId| == 16 && |f.nonce| == 32
  }

  function Get(r: Option<string>): string {
    match r case Some(s) => s case None => ""
  }

  function ParseStr(k: Primitives, r: Option<string>): Option<string> {
    match r case Some(s) => k.parseString(s) case None => None
  }

  function ParseInt(k: Primitives, r: Option<string>): Option<int> {
    match r case Some(s) => k.parseInt(s) case None => None
  }

  function ParseInts(k: Primitives, r: Option<string>): seq<int> {
    match r
    case Some(s) => (match k.parseInts(s) case Some(l) => l case None => [])
    case None => []
  }

  function ParseKey(k: Primitives, r: Option<string>): Option<Jwk> {
    match r case Some(s) => k.parseJwk(s) case None => None
  }

  /** A quoted base64url field as octets, if it is one. */
  function ParseBytes(k: Primitives, r: Option<string>): Option<Bytes> {
    match ParseStr(k, r) case Some(s) => k.unb64(s) case None => None
  }

  function OrElse<T>(o: Option<T>, default: T): T {
    match o case Some(v) => v case None => default
  }

  function EnsureObj(s: string): string {
    if s == "" then "{}" else s
  }

  /** Octets as a quoted base64url field. */
  function Quoted(k: Primitives, b: Bytes): string {
    k.quote(k.b64(b))
  }

  // ---- reactions ----

  datatype Outcome = Outcome(send: Option<Wire>, done: bool, success: bool, error: Option<string>,
                             errorCode: Option<int>)

  /** A step either panics on an `unwrap`, leaving the state alone, or has an outcome. */
  datatype Reaction = Aborted | Reacted(outcome: Outcome)

  function ErrorWire(code: int, info: string): Wire {
    NO_WIRE.(type_ := Some(0), errorCode := Some(code), errorInfo := Some(info))
  }

  function ResultWire(kind: string): Wire {
    NO_WIRE.(eap := Some(kind))
  }

  function Sending(w: Wire): Reaction {
    Reacted(Outcome(Some(w), false, false, None, None))
  }

  function FailCode(code: int, info: string): Reaction {
    Reacted(Outcome(Some(ErrorWire(code, info)), true, false, Some(info), Some(code)))
  }

  function Fail(info: string): Reaction {
    FailCode(INVALID_DATA, info)
  }

  function PeerErrorMsg(code: int, info: Option<string>): string {
    "peer error " + ShowInt(code) + (if info.Some? && info.value != "" then ": " + info.value else "")
  }

  function PeerError(w: Wire): Reaction
    requires w.errorCode.Some?
  {
    Reacted(Outcome(None, true, false, Some(PeerErrorMsg(w.errorCode.value, w.errorInfo)), w.errorCode))
  }

  function DoneFailure(): Reaction {
    Reacted(Outcome(Some(ResultWire("failure")), true, false, None, None))
  }

  // ---- accumulated method state ----

  datatype State = Unregistered | Waiting | OobReceived | Reconnecting | Registered

  function StateNumber(s: State): int {
    match s case Unregistered => 0 case Waiting => 1 case OobReceived => 2 case Reconnecting => 3 case Registered => 4
  }

  datatype Association = Association(peerId: string, nai: string, cryptosuitep: int, kz: Bytes)

  datatype Method = Method(
    suite: Option<Suite>, keypair: Option<KeyPair>, peerId: string, nai: string,
    z: Bytes, ns: Bytes, np: Bytes, noob: Bytes, noobId: Bytes, keym: Option<DerivedKeys>, inp: MacInputs)

  const ZEROS_16: Bytes := [0, 0, 0, 0, 0, 0, 0, 0, 0, 0, 0, 0, 0, 0, 0, 0]
  const ZEROS_32: Bytes := ZEROS_16 + ZEROS_16

  const NO_METHOD := Method(None, None, "", "", [], [], [], [], ZEROS_16, None, NO_INPUTS)

  function SetNoob(k: Primitives, m: Method, noob: Bytes): Method
    requires IsHash(k.sha256)
  {
    m.(noob := noob, inp := m.inp.(noob := Quoted(k, noob)), noobId := NoobIdOf(k, Quoted(k, noob)))
  }

  function DerivedOf(k: Primitives, m: Method): DerivedKeys
    requires IsHash(k.sha256)
  {
    CompletionKeys(k.sha256, m.z, m.np, m.ns, m.noob)
  }

  // ---- the server (inviter) ----

  datatype ServerState = ServerState(
    versions: seq<int>, cryptosuites: seq<int>, dirs: int, state: State, m: Method,
    peerState: int, csp: int, dirp: int, serverInfo: string, assoc: Option<Association>)

  datatype ServerStep = ServerStep(s: ServerState, r: Reaction)

  /** `Server::new().with_server_info(info)`. */
  function NewServer(info: string): ServerState {
    ServerState([1], [2, 1], 2, Unregistered, NO_METHOD, 0, 0, 0, info, None)
  }

  /** The Type 1 request that opens either exchange. */
  const START := NO_WIRE.(type_ := Some(1))

  function ServerReceive(k: Primitives, s: ServerState, blob: Blob, f: Fresh): ServerStep
    requires IsHash(k.sha256)
  {
    match blob
    case Empty => ServerStep(s, Fail("malformed JSON"))
    case Garbage(_) => ServerStep(s, Fail("malformed JSON"))
    case Message(w) =>
      if w.errorCode.Some? then ServerStep(s, PeerError(w))
      else if w.type_ == Some(1) then ServerDiscovery(k, s, w, f)
      else if w.type_ == Some(2) then ServerNegotiation(k, s, w, f)
      else if w.type_ == Some(3) then ServerKeyExchange(k, s, w)
      else if w.type_ == Some(4) then ServerStep(s, DoneFailure())
      else if w.type_ == Some(5) then ServerNoobId(k, s, w)
      else if w.type_ == Some(6) then ServerCompletion(k, s, w)
      else ServerStep(s, Fail("unexpected type"))
  }

  function ServerDiscovery(k: Primitives, s: ServerState, w: Wire, f: Fresh): ServerStep
    requires IsHash(k.sha256)
  {
    var ps := OrElse(w.peerState, 0);
    var nai := OrElse(ParseStr(k, w.nai), s.m.nai);
    var s' := s.(peerState := ps, m := s.m.(nai := if nai == "" then DEFAULT_NAI else nai));
    var ss := StateNumber(s.state);
    if (ss == 2 && (ps == 1 || ps == 2)) || (ps == 2 && (ss == 1 || ss == 2)) then StartCompletion(k, s')
    else if ss == 1 && ps == 1 then
      ServerStep(s', Sending(NO_WIRE.(type_ := Some(4), peerId := Some(k.quote(s'.m.peerId)))))
    else if ss == 0 || ps == 0 then BuildNegotiation(k, s', f)
    else ServerStep(s', Fail("state mismatch"))
  }

  function BuildNegotiation(k: Primitives, s: ServerState, f: Fresh): ServerStep {
    var id := k.b64(f.peerId);
    var inp := s.m.inp.(vers := ShowInts(s.versions), peerId := k.quote(id), cryptosuites := ShowInts(s.cryptosuites),
                        dirs := ShowInt(s.dirs), serverInfo := s.serverInfo);
    ServerStep(
      s.(m := s.m.(peerId := id, inp := inp)),
      Sending(NO_WIRE.(type_ := Some(2), vers := Some(inp.vers), peerId := Some(inp.peerId),
                       cryptosuites := Some(inp.cryptosuites), dirs := Some(inp.dirs),
                       serverInfo := Some(inp.serverInfo))))
  }

  predicate PeerIdOk(k: Primitives, s: ServerState, w: Wire) {
    s.m.peerId == "" || ParseStr(k, w.peerId) == Some(s.m.peerId)
  }

  function ServerNegotiation(k: Primitives, s: ServerState, w: Wire, f: Fresh): ServerStep {
    var verp := OrElse(ParseInt(k, w.verp), -1);
    var csp := OrElse(ParseInt(k, w.cryptosuitep), -1);
    var dirp := OrElse(ParseInt(k, w.dirp), -1);
    if !PeerIdOk(k, s, w) then ServerStep(s, Fail("PeerId mismatch"))
    else if !VersionAccepted(verp, s.versions) then ServerStep(s, Fail("unsupported version"))
    else if !SuiteAccepted(csp, s.cryptosuites) then ServerStep(s, Fail("unsupported cryptosuite"))
    else if !DirAccepted(dirp, s.dirs) then ServerStep(s, Fail("no mutual OOB direction"))
    else
      var inp := s.m.inp.(verp := Get(w.verp), cryptosuitep := Get(w.cryptosuitep), dirp := Get(w.dirp),
                          peerInfo := EnsureObj(Get(w.peerInfo)), nai := k.quote(s.m.nai));
      BuildKeyExchange(k, s.(csp := csp, dirp := dirp, m := s.m.(suite := SuiteFromId(csp), inp := inp)), f)
  }

  function BuildKeyExchange(k: Primitives, s: ServerState, f: Fresh): ServerStep
    requires s.m.suite.Some?
  {
    var kp := KeyPair(s.m.suite.value, f.secret);
    var pks := k.showJwk(k.publicKey(kp));
    var ns := Quoted(k, f.nonce);
    ServerStep(
      s.(m := s.m.(keypair := Some(kp), ns := f.nonce, inp := s.m.inp.(pks := pks, ns := ns))),
      Sending(NO_WIRE.(type_ := Some(3), peerId := Some(k.quote(s.m.peerId)), pks := Some(pks), ns := Some(ns))))
  }

  function ServerKeyExchange(k: Primitives, s: ServerState, w: Wire): ServerStep {
    if !PeerIdOk(k, s, w) then ServerStep(s, Fail("PeerId mismatch"))
    else if ParseKey(k, w.pkp).None? then ServerStep(s, Fail("bad PKp"))
    else if s.m.keypair.None? then ServerStep(s, Aborted)
    else
      var z := k.sharedSecret(s.m.keypair.value, ParseKey(k, w.pkp).value);
      if z.None? then ServerStep(s, Fail("ECDHE failure"))
      else if ParseStr(k, w.np).None? then ServerStep(s, Fail("bad Np"))
      else if ParseBytes(k, w.np).None? then ServerStep(s, Fail("bad Np encoding"))
      else
        ServerStep(
          s.(state := Waiting, m := s.m.(z := z.value, np := ParseBytes(k, w.np).value,
                                         inp := s.m.inp.(pkp := Get(w.pkp), np := Get(w.np)))),
          DoneFailure())
  }

  function StartCompletion(k: Primitives, s: ServerState): ServerStep
    requires IsHash(k.sha256)
  {
    if s.m.noob == [] then ServerStep(s, Fail("no OOB processed"))
    else if s.peerState == 2 then
      ServerStep(s, Sending(NO_WIRE.(type_ := Some(5), peerId := Some(k.quote(s.m.peerId)))))
    else BuildCompletion(k, s)
  }

  function ServerNoobId(k: Primitives, s: ServerState, w: Wire): ServerStep
    requires IsHash(k.sha256)
  {
    if !PeerIdOk(k, s, w) then ServerStep(s, Fail("PeerId mismatch"))
    else if OrElse(ParseBytes(k, w.noobId), []) != s.m.noobId then
      ServerStep(s, FailCode(UNRECOGNIZED_OOB_MSG_ID, "unrecognized NoobId"))
    else BuildCompletion(k, s)
  }

  function BuildCompletion(k: Primitives, s: ServerState): ServerStep
    requires IsHash(k.sha256)
  {
    var keys := DerivedOf(k, s.m);
    ServerStep(
      s.(m := s.m.(keym := Some(keys))),
      Sending(NO_WIRE.(type_ := Some(6), peerId := Some(k.quote(s.m.peerId)), noobId := Some(Quoted(k, s.m.noobId)),
                       macs := Some(Quoted(k, Mac(k, keys.kms, 2, s.m.inp))))))
  }

  function ServerCompletion(k: Primitives, s: ServerState, w: Wire): ServerStep {
    if !PeerIdOk(k, s, w) then ServerStep(s, Fail("PeerId mismatch"))
    else if s.m.keym.None? then ServerStep(s, Aborted)
    else if OrElse(ParseBytes(k, w.macp), []) != Mac(k, s.m.keym.value.kmp, 1, s.m.inp) then
      ServerStep(s, FailCode(HMAC_VERIFICATION_FAILED, "MACp verification failed"))
    else
      ServerStep(
        s.(state := Registered,
           assoc := Some(Association(s.m.peerId, s.m.nai, s.csp % 256, s.m.keym.value.kz))),
        Reacted(Outcome(Some(ResultWire("success")), true, true, None, None)))
  }

  /** `oob_output_with`: take the PIN-derived Noob at Waiting. */
  function ServerOob(k: Primitives, s: ServerState, noob: Bytes): Result<ServerState>
    requires IsHash(k.sha256)
  {
    if s.state != Waiting then Err("OOB requires Waiting state")
    else if s.dirp != 2 && s.dirp != 3 then Err("server-to-peer OOB not negotiated")
    else if |noob| != 16 then Err("Noob must be 16 bytes")
    else Ok(s.(m := SetNoob(k, s.m, noob)))
  }

  // ---- the peer (joiner) ----

  datatype PeerState = PeerState(
    versions: seq<int>, cryptosuites: seq<int>, preferDir: int, state: State, m: Method,
    csp: int, dirp: int, peerInfo: string, assoc: Option<Association>)

  datatype PeerStep = PeerStep(p: PeerState, r: Reaction)

  /** `Peer::new().with_peer_info(info)`. */
  function NewPeer(info: string): PeerState {
    PeerState([1], [1, 2], 2, Unregistered, NO_METHOD.(nai := DEFAULT_NAI), 0, 0, info, None)
  }

  function PeerReceive(k: Primitives, p: PeerState, blob: Blob, f: Fresh): PeerStep
    requires IsHash(k.sha256)
  {
    match blob
    case Empty => PeerStep(p, Fail("malformed JSON"))
    case Garbage(_) => PeerStep(p, Fail("malformed JSON"))
    case Message(w) =>
      if w.eap.Some? then PeerResult(p, w.eap.value)
      else if w.errorCode.Some? then PeerStep(p, PeerError(w))
      else if w.type_ == Some(1) then PeerStep(p, Sending(PeerDiscovery(k, p)))
      else if w.type_ == Some(2) then PeerNegotiation(k, p, w)
      else if w.type_ == Some(3) then PeerKeyExchange(k, p, w, f)
      else if w.type_ == Some(4) then
        PeerStep(p, Sending(NO_WIRE.(type_ := Some(4), peerId := Some(k.quote(p.m.peerId)))))
      else if w.type_ == Some(5) then PeerStep(p, PeerNoobId(k, p))
      else if w.type_ == Some(6) then PeerCompletion(k, p, w)
      else PeerStep(p, Fail("unexpected type"))
  }

  function PeerResult(p: PeerState, eap: string): PeerStep {
    if eap == "success" then
      var kz := match p.m.keym case Some(keys) => keys.kz case None => ZEROS_32;
      PeerStep(
        p.(state := Registered, assoc := Some(Association(p.m.peerId, p.m.nai, p.csp % 256, kz))),
        Reacted(Outcome(None, true, true, None, None)))
    else PeerStep(p, Reacted(Outcome(None, true, false, None, None)))
  }

  function PeerDiscovery(k: Primitives, p: PeerState): Wire {
    var w := NO_WIRE.(type_ := Some(1), peerState := Some(StateNumber(p.state)), nai := Some(k.quote(p.m.nai)));
    if p.state != Unregistered && p.m.peerId != "" then w.(peerId := Some(k.quote(p.m.peerId))) else w
  }

  function PeerNegotiation(k: Primitives, p: PeerState, w: Wire): PeerStep {
    if ParseStr(k, w.peerId).None? then PeerStep(p, Fail("bad PeerId"))
    else
      var id := ParseStr(k, w.peerId).value;
      var p' := p.(m := p.m.(peerId := id));
      var verp := MaxCommon(ParseInts(k, w.vers), p.versions);
      var csp := FirstSupported(ParseInts(k, w.cryptosuites), p.cryptosuites);
      var dirp := ChooseDir(OrElse(ParseInt(k, w.dirs), -1), p.preferDir);
      if verp.None? then PeerStep(p', Fail("no common version"))
      else if csp.None? then PeerStep(p', Fail("no common cryptosuite"))
      else if dirp.None? then PeerStep(p', Fail("no mutual OOB direction"))
      else
        var nai := OrElse(ParseStr(k, w.newNai), p.m.nai);
        var inp := p.m.inp.(vers := Get(w.vers), peerId := Get(w.peerId), cryptosuites := Get(w.cryptosuites),
                            dirs := Get(w.dirs), serverInfo := EnsureObj(Get(w.serverInfo)),
                            verp := ShowInt(verp.value), cryptosuitep := ShowInt(csp.value),
                            dirp := ShowInt(dirp.value),
                            peerInfo := p.peerInfo, nai := k.quote(nai));
        PeerStep(
          p'.(csp := csp.value, dirp := dirp.value,
              m := p'.m.(suite := SuiteFromId(csp.value), nai := nai, inp := inp)),
          Sending(NO_WIRE.(type_ := Some(2), verp := Some(inp.verp), peerId := Some(k.quote(id)),
                           cryptosuitep := Some(inp.cryptosuitep), dirp := Some(inp.dirp),
                           peerInfo := Some(p.peerInfo))))
  }

  function PeerKeyExchange(k: Primitives, p: PeerState, w: Wire, f: Fresh): PeerStep {
    if ParseKey(k, w.pks).None? then PeerStep(p, Fail("bad PKs"))
    else if ParseBytes(k, w.ns).None? then PeerStep(p, Fail("bad Ns"))
    else if p.m.suite.None? then PeerStep(p, Aborted)
    else
      var kp := KeyPair(p.m.suite.value, f.secret);
      var z := k.sharedSecret(kp, ParseKey(k, w.pks).value);
      if z.None? then PeerStep(p, Fail("ECDHE failure"))
      else
        var pkp, np := k.showJwk(k.publicKey(kp)), Quoted(k, f.nonce);
        PeerStep(
          p.(state := Waiting,
             m := p.m.(keypair := Some(kp), z := z.value, ns := ParseBytes(k, w.ns).value, np := f.nonce,
                       inp := p.m.inp.(pks := Get(w.pks), ns := Get(w.ns), pkp := pkp, np := np))),
          Sending(NO_WIRE.(type_ := Some(3), peerId := Some(k.quote(p.m.peerId)), pkp := Some(pkp), np := Some(np))))
  }

  function PeerNoobId(k: Primitives, p: PeerState): Reaction {
    if p.m.noob == [] then Fail("no OOB received")
    else Sending(NO_WIRE.(type_ := Some(5), peerId := Some(k.quote(p.m.peerId)), noobId := Some(Quoted(k, p.m.noobId))))
  }

  function PeerCompletion(k: Primitives, p: PeerState, w: Wire): PeerStep
    requires IsHash(k.sha256)
  {
    if p.m.noob == [] then PeerStep(p, Fail("no OOB processed"))
    else if OrElse(ParseBytes(k, w.noobId), []) != p.m.noobId then
      PeerStep(p, FailCode(UNRECOGNIZED_OOB_MSG_ID, "unrecognized NoobId"))
    else
      var keys := DerivedOf(k, p.m);
      var p' := p.(m := p.m.(keym := Some(keys)));
      if OrElse(ParseBytes(k, w.macs), []) != Mac(k, keys.kms, 2, p.m.inp) then
        PeerStep(p', FailCode(HMAC_VERIFICATION_FAILED, "MACs verification failed"))
      else
        PeerStep(p', Sending(NO_WIRE.(type_ := Some(6), peerId := Some(k.quote(p.m.peerId)),
                                      macp := Some(Quoted(k, Mac(k, keys.kmp, 1, p.m.inp))))))
  }

  /** `oob_input_noob`: take the PIN-derived Noob at Waiting. */
  function PeerOob(k: Primitives, p: PeerState, noob: Bytes): Result<PeerState>
    requires IsHash(k.sha256)
  {
    if p.state != Waiting then Err("OOB requires Waiting state")
    else if p.dirp != 2 && p.dirp != 3 then Err("server-to-peer OOB not negotiated")
    else if |noob| != 16 then Err("Noob must be 16 bytes")
    else Ok(p.(state := OobReceived, m := SetNoob(k, p.m, noob)))
  }
}
