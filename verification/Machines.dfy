/** The EAP-NOOB Server and Peer objects of crates/pair-pairing/src/machine.rs, updated in place. */
module Machines {
  import opened Octets
  import opened Decimal
  import opened Negotiation
  import opened Kdf
  import opened MacArray
  import opened Primitives
  import opened Protocol

  class Server {
    var versions: seq<int>
    var cryptosuites: seq<int>
    var dirs: int
    var state: State
    var m: Method
    var peerState: int
    var csp: int
    var dirp: int
    var serverInfo: string
    var assoc: Option<Association>

    function View(): ServerState
      reads this
    {
      ServerState(versions, cryptosuites, dirs, state, m, peerState, csp, dirp, serverInfo, assoc)
    }

    constructor WithServerInfo(info: string)
      ensures View() == NewServer(info)
    {
      versions, cryptosuites, dirs := [1], [2, 1], 2;
      state, m, assoc := Unregistered, NO_METHOD, None;
      peerState, csp, dirp, serverInfo := 0, 0, 0, info;
    }

    method Receive(k: Primitives, blob: Blob, f: Fresh) returns (r: Reaction)
      requires IsHash(k.sha256)
      modifies this
      ensures ServerStep(View(), r) == ServerReceive(k, old(View()), blob, f)
    {
      if !blob.Message? {
        return Fail("malformed JSON");
      }
      var w := blob.wire;
      if w.errorCode.Some? {
        return PeerError(w);
      }
      match w.type_ {
        case Some(1) => r := OnDiscovery(k, w, f);
        case Some(2) => r := OnNegotiation(k, w, f);
        case Some(3) => r := OnKeyExchange(k, w);
        case Some(4) => r := DoneFailure();
        case Some(5) => r := OnNoobId(k, w);
        case Some(6) => r := OnCompletion(k, w);
        case _ => r := Fail("unexpected type");
      }
    }

    method OnDiscovery(k: Primitives, w: Wire, f: Fresh) returns (r: Reaction)
      requires IsHash(k.sha256)
      modifies this
      ensures ServerStep(View(), r) == ServerDiscovery(k, old(View()), w, f)
    {
      peerState := OrElse(w.peerState, 0);
      var nai := ParseStr(k, w.nai);
      if nai.Some? {
        m := m.(nai := nai.value);
      }
      if m.nai == "" {
        m := m.(nai := DEFAULT_NAI);
      }
      var ss, ps := StateNumber(state), peerState;
      if (ss == 2 && (ps == 1 || ps == 2)) || (ps == 2 && (ss == 1 || ss == 2)) {
        r := StartCompletion(k);
      } else if ss == 1 && ps == 1 {
        r := BuildWaiting(k);
      } else if ss == 0 || ps == 0 {
        r := BuildNegotiation(k, f);
      } else {
        r := Fail("state mismatch");
      }
    }

    method BuildWaiting(k: Primitives) returns (r: Reaction)
      ensures r == Sending(NO_WIRE.(type_ := Some(4), peerId := Some(k.quote(m.peerId))))
    {
      r := Sending(NO_WIRE.(type_ := Some(4), peerId := Some(k.quote(m.peerId))));
    }

    method BuildNegotiation(k: Primitives, f: Fresh) returns (r: Reaction)
      modifies this
      ensures ServerStep(View(), r) == Protocol.BuildNegotiation(k, old(View()), f)
    {
      var id := k.b64(f.peerId);
      m := m.(peerId := id);
      var vers, cs, d := ShowInts(versions), ShowInts(cryptosuites), ShowInt(dirs);
      m := m.(inp := m.inp.(vers := vers));
      m := m.(inp := m.inp.(peerId := k.quote(id)));
      m := m.(inp := m.inp.(cryptosuites := cs));
      m := m.(inp := m.inp.(dirs := d));
      m := m.(inp := m.inp.(serverInfo := serverInfo));
      r := Sending(NO_WIRE.(type_ := Some(2), vers := Some(vers), peerId := Some(k.quote(id)),
                            cryptosuites := Some(cs), dirs := Some(d), serverInfo := Some(serverInfo)));
    }

    method CheckPeerId(k: Primitives, w: Wire) returns (ok: bool)
      ensures ok == PeerIdOk(k, View(), w)
    {
      if m.peerId == "" {
        return true;
      }
      var got := ParseStr(k, w.peerId);
      ok := got.Some? && got.value == m.peerId;
    }

    method OnNegotiation(k: Primitives, w: Wire, f: Fresh) returns (r: Reaction)
      modifies this
      ensures ServerStep(View(), r) == ServerNegotiation(k, old(View()), w, f)
    {
      var known := CheckPeerId(k, w);
      if !known {
        return Fail("PeerId mismatch");
      }
      var verp := OrElse(ParseInt(k, w.verp), -1);
      if verp !in versions {
        return Fail("unsupported version");
      }
      var chosen := OrElse(ParseInt(k, w.cryptosuitep), -1);
      if chosen !in cryptosuites || SuiteFromId(chosen).None? {
        return Fail("unsupported cryptosuite");
      }
      var dir := OrElse(ParseInt(k, w.dirp), -1);
      if !DirAccepted(dir, dirs) {
        return Fail("no mutual OOB direction");
      }
      m := m.(suite := SuiteFromId(chosen));
      csp := chosen;
      dirp := dir;
      m := m.(inp := m.inp.(verp := Get(w.verp)));
      m := m.(inp := m.inp.(cryptosuitep := Get(w.cryptosuitep)));
      m := m.(inp := m.inp.(dirp := Get(w.dirp)));
      m := m.(inp := m.inp.(peerInfo := EnsureObj(Get(w.peerInfo))));
      m := m.(inp := m.inp.(nai := k.quote(m.nai)));
      r := BuildKeyExchange(k, f);
    }

    method BuildKeyExchange(k: Primitives, f: Fresh) returns (r: Reaction)
      requires m.suite.Some?
      modifies this
      ensures ServerStep(View(), r) == Protocol.BuildKeyExchange(k, old(View()), f)
    {
      var kp := KeyPair(m.suite.value, f.secret);
      var pks := k.showJwk(k.publicKey(kp));
      m := m.(keypair := Some(kp));
      m := m.(ns := f.nonce);
      var ns := Quoted(k, f.nonce);
      m := m.(inp := m.inp.(pks := pks));
      m := m.(inp := m.inp.(ns := ns));
      r := Sending(NO_WIRE.(type_ := Some(3), peerId := Some(k.quote(m.peerId)), pks := Some(pks), ns := Some(ns)));
    }

    method OnKeyExchange(k: Primitives, w: Wire) returns (r: Reaction)
      modifies this
      ensures ServerStep(View(), r) == ServerKeyExchange(k, old(View()), w)
    {
      var known := CheckPeerId(k, w);
      if !known {
        return Fail("PeerId mismatch");
      }
      var jwk := ParseKey(k, w.pkp);
      if jwk.None? {
        return Fail("bad PKp");
      }
      if m.keypair.None? {
        return Aborted;
      }
      var z := k.sharedSecret(m.keypair.value, jwk.value);
      if z.None? {
        return Fail("ECDHE failure");
      }
      var npText := ParseStr(k, w.np);
      if npText.None? {
        return Fail("bad Np");
      }
      var np := k.unb64(npText.value);
      if np.None? {
        return Fail("bad Np encoding");
      }
      m := m.(np := np.value);
      m := m.(z := z.value);
      m := m.(inp := m.inp.(pkp := Get(w.pkp)));
      m := m.(inp := m.inp.(np := Get(w.np)));
      state := Waiting;
      r := DoneFailure();
    }

    method StartCompletion(k: Primitives) returns (r: Reaction)
      requires IsHash(k.sha256)
      modifies this
      ensures ServerStep(View(), r) == Protocol.StartCompletion(k, old(View()))
    {
      if m.noob == [] {
        return Fail("no OOB processed");
      }
      if peerState == 2 {
        r := Sending(NO_WIRE.(type_ := Some(5), peerId := Some(k.quote(m.peerId))));
      } else {
        r := BuildCompletion(k);
      }
    }

    method OnNoobId(k: Primitives, w: Wire) returns (r: Reaction)
      requires IsHash(k.sha256)
      modifies this
      ensures ServerStep(View(), r) == ServerNoobId(k, old(View()), w)
    {
      var known := CheckPeerId(k, w);
      if !known {
        return Fail("PeerId mismatch");
      }
      var got := OrElse(ParseBytes(k, w.noobId), []);
      if got != m.noobId {
        return FailCode(UNRECOGNIZED_OOB_MSG_ID, "unrecognized NoobId");
      }
      r := BuildCompletion(k);
    }

    method BuildCompletion(k: Primitives) returns (r: Reaction)
      requires IsHash(k.sha256)
      modifies this
      ensures ServerStep(View(), r) == Protocol.BuildCompletion(k, old(View()))
    {
      var keys := DeriveCompletion(k.sha256, m.z, m.np, m.ns, m.noob);
      m := m.(keym := Some(keys));
      var macs := ComputeMac(k, keys.kms, 2, m.inp);
      r := Sending(NO_WIRE.(type_ := Some(6), peerId := Some(k.quote(m.peerId)), noobId := Some(Quoted(k, m.noobId)),
                            macs := Some(Quoted(k, macs))));
    }

    method OnCompletion(k: Primitives, w: Wire) returns (r: Reaction)
      modifies this
      ensures ServerStep(View(), r) == ServerCompletion(k, old(View()), w)
    {
      var known := CheckPeerId(k, w);
      if !known {
        return Fail("PeerId mismatch");
      }
      var macp := OrElse(ParseBytes(k, w.macp), []);
      if m.keym.None? {
        return Aborted;
      }
      var expected := ComputeMac(k, m.keym.value.kmp, 1, m.inp);
      var same := MacEqual(macp, expected);
      if !same {
        return FailCode(HMAC_VERIFICATION_FAILED, "MACp verification failed");
      }
      assoc := Some(Association(m.peerId, m.nai, csp % 256, m.keym.value.kz));
      state := Registered;
      r := Reacted(Outcome(Some(ResultWire("success")), true, true, None, None));
    }

    method OobOutputWith(k: Primitives, noob: Bytes) returns (r: Result<()>)
      requires IsHash(k.sha256)
      modifies this
      ensures match ServerOob(k, old(View()), noob)
              case Ok(s) => r == Ok(()) && View() == s
              case Err(e) => r == Err(e) && View() == old(View())
    {
      if state != Waiting {
        return Err("OOB requires Waiting state");
      }
      if !(dirp == 2 || dirp == 3) {
        return Err("server-to-peer OOB not negotiated");
      }
      if |noob| != 16 {
        return Err("Noob must be 16 bytes");
      }
      m := UpdateNoob(k, m, noob);
      r := Ok(());
    }
  }

  /** `Method::set_noob`, which both machines call on the method state they own. */
  method UpdateNoob(k: Primitives, m: Method, noob: Bytes) returns (m': Method)
    requires IsHash(k.sha256)
    ensures m' == SetNoob(k, m, noob)
  {
    var text := k.quote(k.b64(noob));
    m' := m.(noob := noob);
    m' := m'.(inp := m'.inp.(noob := text));
    var id := ComputeNoobId(k, text);
    m' := m'.(noobId := id);
  }

  class Peer {
    var versions: seq<int>
    var cryptosuites: seq<int>
    var preferDir: int
    var state: State
    var m: Method
    var csp: int
    var dirp: int
    var peerInfo: string
    var assoc: Option<Association>

    function View(): PeerState
      reads this
    {
      PeerState(versions, cryptosuites, preferDir, state, m, csp, dirp, peerInfo, assoc)
    }

    constructor WithPeerInfo(info: string)
      ensures View() == NewPeer(info)
    {
      versions, cryptosuites, preferDir := [1], [1, 2], 2;
      state, m, assoc := Unregistered, NO_METHOD.(nai := DEFAULT_NAI), None;
      csp, dirp, peerInfo := 0, 0, info;
    }

    method Receive(k: Primitives, blob: Blob, f: Fresh) returns (r: Reaction)
      requires IsHash(k.sha256)
      modifies this
      ensures PeerStep(View(), r) == PeerReceive(k, old(View()), blob, f)
    {
      if !blob.Message? {
        return Fail("malformed JSON");
      }
      var w := blob.wire;
      if w.eap.Some? {
        r := OnResult(w.eap.value);
        return;
      }
      if w.errorCode.Some? {
        return PeerError(w);
      }
      match w.type_ {
        case Some(1) => r := OnDiscovery(k);
        case Some(2) => r := OnNegotiation(k, w);
        case Some(3) => r := OnKeyExchange(k, w, f);
        case Some(4) => r := Sending(NO_WIRE.(type_ := Some(4), peerId := Some(k.quote(m.peerId))));
        case Some(5) => r := OnNoobId(k);
        case Some(6) => r := OnCompletion(k, w);
        case _ => r := Fail("unexpected type");
      }
    }

    method OnResult(eap: string) returns (r: Reaction)
      modifies this
      ensures PeerStep(View(), r) == PeerResult(old(View()), eap)
    {
      if eap == "success" {
        var kz := match m.keym case Some(keys) => keys.kz case None => ZEROS_32;
        assoc := Some(Association(m.peerId, m.nai, csp % 256, kz));
        state := Registered;
        r := Reacted(Outcome(None, true, true, None, None));
      } else {
        r := Reacted(Outcome(None, true, false, None, None));
      }
    }

    method OnDiscovery(k: Primitives) returns (r: Reaction)
      ensures r == Sending(PeerDiscovery(k, View()))
    {
      var w := NO_WIRE.(type_ := Some(1), peerState := Some(StateNumber(state)), nai := Some(k.quote(m.nai)));
      if state != Unregistered && m.peerId != "" {
        w := w.(peerId := Some(k.quote(m.peerId)));
      }
      r := Sending(w);
    }

    method OnNegotiation(k: Primitives, w: Wire) returns (r: Reaction)
      modifies this
      ensures PeerStep(View(), r) == PeerNegotiation(k, old(View()), w)
    {
      var id := ParseStr(k, w.peerId);
      if id.None? {
        return Fail("bad PeerId");
      }
      m := m.(peerId := id.value);
      var verp := BestVersion(ParseInts(k, w.vers), versions);
      if verp.None? {
        return Fail("no common version");
      }
      var chosen := FirstSupported(ParseInts(k, w.cryptosuites), cryptosuites);
      if chosen.None? {
        return Fail("no common cryptosuite");
      }
      var dir := ChooseDir(OrElse(ParseInt(k, w.dirs), -1), preferDir);
      if dir.None? {
        return Fail("no mutual OOB direction");
      }
      m := m.(suite := SuiteFromId(chosen.value));
      csp := chosen.value;
      dirp := dir.value;
      var newNai := ParseStr(k, w.newNai);
      if newNai.Some? {
        m := m.(nai := newNai.value);
      }
      m := m.(inp := m.inp.(vers := Get(w.vers), peerId := Get(w.peerId)));
      m := m.(inp := m.inp.(cryptosuites := Get(w.cryptosuites), dirs := Get(w.dirs)));
      m := m.(inp := m.inp.(serverInfo := EnsureObj(Get(w.serverInfo))));
      m := m.(inp := m.inp.(verp := ShowInt(verp.value), cryptosuitep := ShowInt(chosen.value)));
      m := m.(inp := m.inp.(dirp := ShowInt(dir.value), peerInfo := peerInfo));
      m := m.(inp := m.inp.(nai := k.quote(m.nai)));
      r := Sending(NO_WIRE.(type_ := Some(2), verp := Some(ShowInt(verp.value)), peerId := Some(k.quote(id.value)),
                            cryptosuitep := Some(ShowInt(chosen.value)), dirp := Some(ShowInt(dir.value)),
                            peerInfo := Some(peerInfo)));
    }

    method OnKeyExchange(k: Primitives, w: Wire, f: Fresh) returns (r: Reaction)
      modifies this
      ensures PeerStep(View(), r) == PeerKeyExchange(k, old(View()), w, f)
    {
      var jwk := ParseKey(k, w.pks);
      if jwk.None? {
        return Fail("bad PKs");
      }
      var ns := ParseBytes(k, w.ns);
      if ns.None? {
        return Fail("bad Ns");
      }
      if m.suite.None? {
        return Aborted;
      }
      var kp := KeyPair(m.suite.value, f.secret);
      var z := k.sharedSecret(kp, jwk.value);
      if z.None? {
        return Fail("ECDHE failure");
      }
      var pkp := k.showJwk(k.publicKey(kp));
      var np := Quoted(k, f.nonce);
      m := m.(keypair := Some(kp));
      m := m.(z := z.value);
      m := m.(ns := ns.value);
      m := m.(np := f.nonce);
      m := m.(inp := m.inp.(pks := Get(w.pks), ns := Get(w.ns)));
      m := m.(inp := m.inp.(pkp := pkp, np := np));
      state := Waiting;
      r := Sending(NO_WIRE.(type_ := Some(3), peerId := Some(k.quote(m.peerId)), pkp := Some(pkp), np := Some(np)));
    }

    method OnNoobId(k: Primitives) returns (r: Reaction)
      ensures r == PeerNoobId(k, View())
    {
      if m.noob == [] {
        return Fail("no OOB received");
      }
      r := Sending(NO_WIRE.(type_ := Some(5), peerId := Some(k.quote(m.peerId)), noobId := Some(Quoted(k, m.noobId))));
    }

    method OnCompletion(k: Primitives, w: Wire) returns (r: Reaction)
      requires IsHash(k.sha256)
      modifies this
      ensures PeerStep(View(), r) == PeerCompletion(k, old(View()), w)
    {
      if m.noob == [] {
        return Fail("no OOB processed");
      }
      var got := OrElse(ParseBytes(k, w.noobId), []);
      if got != m.noobId {
        return FailCode(UNRECOGNIZED_OOB_MSG_ID, "unrecognized NoobId");
      }
      var macs := OrElse(ParseBytes(k, w.macs), []);
      var keys := DeriveCompletion(k.sha256, m.z, m.np, m.ns, m.noob);
      m := m.(keym := Some(keys));
      var expected := ComputeMac(k, keys.kms, 2, m.inp);
      var same := MacEqual(macs, expected);
      if !same {
        return FailCode(HMAC_VERIFICATION_FAILED, "MACs verification failed");
      }
      var macp := ComputeMac(k, keys.kmp, 1, m.inp);
      r := Sending(NO_WIRE.(type_ := Some(6), peerId := Some(k.quote(m.peerId)), macp := Some(Quoted(k, macp))));
    }

    method OobInputNoob(k: Primitives, noob: Bytes) returns (r: Result<()>)
      requires IsHash(k.sha256)
      modifies this
      ensures match PeerOob(k, old(View()), noob)
              case Ok(p) => r == Ok(()) && View() == p
              case Err(e) => r == Err(e) && View() == old(View())
    {
      if state != Waiting {
        return Err("OOB requires Waiting state");
      }
      if !(dirp == 2 || dirp == 3) {
        return Err("server-to-peer OOB not negotiated");
      }
      if |noob| != 16 {
        return Err("Noob must be 16 bytes");
      }
      m := UpdateNoob(k, m, noob);
      state := OobReceived;
      r := Ok(());
    }
  }
}
