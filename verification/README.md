# OpenPair pairing: a model and its proofs

The programs modelled here let two machines join one cluster. An inviter and a joiner run EAP-NOOB (RFC 9140)
over HTTP: an Initial Exchange that the inviter drives, a six-digit PIN that a person carries from one screen to
the other, and a Completion Exchange that the joiner drives. At the end each side pins the certificate that the
other embedded in its PairingInfo. Around that core stand byte formats that must be read back as they were
written, a routing table and a pin store with a mirror on disk.

## How the model is built

- `Protocol` holds the two state machines as step functions: state, message and this step's random values give the
  next state and a reaction. `Machines` holds them as classes that update their fields in place, each method proved
  equal to its step function. An `unwrap` on nothing is a reaction of its own, `Aborted`.
- `Session`, `Node` and `PairingNodes` wrap the machines, capture identities, and serve requests over three shared
  maps. A `Slot` is what a node files under one invite id; the class is proved to act on the slot of the request's
  id alone.
- `Lanes` puts one inviter and one joiner on one invite id, with a network that may lose any request or any reply.
  `LaneSafety`, `LanePairing` and `LaneRuns` prove its invariant and what pinning implies; `LaneOutcomes` proves
  where honest runs and runs with a wrong PIN end; `LaneSystem` interleaves any number of invites, and `LaneFlag`
  and `SingleCluster` prove what the clustered flag stops.
- `Invariants`, `Transcript`, `StoredSessions`, `KeyOrigin`, `PendingInvites`, `Exchange` and `Bargain` are about
  the machines and sessions under arbitrary messages and arbitrary preferences. `Verbatim` proves that the MAC inputs
  are the messages of the run.
- `Replies` says what each message is answered with, without naming a step function, and lemmas named `InFull` do so
  for the layouts and the tables below them: the places of the MAC array, the input of each KDF block, the base64
  alphabet, the frames.
- SHA-256, HMAC, ECDH, JSON and base64url (de)serialisation and the certificate's node UUID are functions of a record,
  `Primitives`, that every statement quantifies over. `Primitives.Lawful` lists all that is assumed of them:
  lengths of the two digests, ECDH commuting, printers emitting JSON text and parsers reading it back.
  `Consistency` builds a record that obeys these laws, and `Witnesses` two nodes for which the premises of the main
  theorems hold. No hash is assumed injective: where it matters, the
  absence of a collision on the inputs at hand is a hypothesis of the lemma.
- Random keys, nonces, ids and PINs are parameters, as is the order in which a map or a directory is listed.

## What the proofs found

- A refusal of directions does not always mean that none is common: an offer with bits beyond the two of RFC 9140,
  such as 6, is refused although the server would accept direction 2 (`Negotiation.DirRefusalExact` gives the exact
  condition). The nodes themselves always offer 2.
- A Type 6 that reaches a stored session before any Type 5 made it derive keys panics on a missing value, leaving
  the session as it was. It is exactly the way a stored session can panic
  (`StoredSessions.StoredPanicsExactly`), and a session filed by `create_invite` can (`PendingInvites.FiledCanPanic`).
- The NoobId that a server compares with is sixteen zeros until it has a Noob. A joiner that names it before it sends
  its key makes the inviter derive keys from an empty Noob, and these keys stay until the NoobId is named again
  (`KeyOrigin.PinKeysExactly`, `KeyOrigin.FiledWithoutPin`). The MACp under them still covers the PIN's Noob, which is
  one of its inputs (`KeyOrigin.PinnedKeyOrigin`).
- The inviter captures the joiner's identity once. After a second negotiation in the same session the identity it pins
  need not be the one under the MAC it accepts (`KeyOrigin.PinnedIsMacdExactly`, `KeyOrigin.CapturePinnedAgain`).
- crates/pair-node/src/pairing.rs:8-9 promises that a node that has paired refuses further joins. It refuses those
  invites of which it took no post before: the flag is read only when a session is created, so invites that are
  under way can still pair it again, and no others can (`SingleCluster.LaterPinsExactly`,
  `SingleCluster.TwoInvitesPin`).
- Memory and disk agree exactly when each pin is given by some certificate file of `trusted/` and no file gives
  anything else, whatever writes failed and whenever the node restarted (`ClusterDir.RunAgreesExactly`). As long as
  all writes succeed that is so exactly when every pinned UUID leads, joined to `trusted/`, to a certificate file of
  that very directory and no two UUIDs lead to one file (`ClusterDir.MemoryAndDiskAgree`). A UUID is taken as it
  stands in the certificate, so this fails for an empty one (its file `.crt` has no extension), for one that leads
  elsewhere (`../node` replaces the node's own `node.crt`, `/tmp/x` is written to `/tmp/x.crt`), and for two such as
  `a` and `./a` (`LostPins`). Nonempty UUIDs without `/` agree after successful writes (`ClusterDir.PlainUuidsAgree`).
- A refused write leaves the pin in memory alone, unless that very certificate was pinned before
  (`ClusterDir.RefusedWriteExactly`), and the node does not count itself clustered
  (`TrustSink.ClusterTrustSink.PinPeer`). One that breaks off can also destroy the file of an earlier pin
  (`ClusterDir.BrokenWriteExactly`).
- An error in the Initial Exchange evicts the joiner's session but leaves an earlier pending entry in place. That is
  exactly how a pending invite loses its session (`PendingInvites.OrphanedExactly`), and it happens
  (`PendingInvites.OrphanReached`).
- Membership payloads are ambiguous exactly through line feeds inside neighbouring text fields
  (`Membership.PayloadEqualExactly`).
- JSON lines lose bodies that are empty, hold a line feed or end in CR, and the length prefix loses bodies from 2^32
  octets on: the round trips are stated as equivalences.
- The routing result can depend on the iteration order of the peer map when two peers share the lowest rank or are
  both manual (`Routing.OrderFreeExact`).

## Where code and documentation differ

The model follows the code.

- docs/PAIRING.md:137-138 lists the codes 3001 to 3003, 2001 and 2002; the machines send only 1003, 2003 and 4001
  (part of `Invariants.ServerStepSafe` and of `Invariants.PeerStepSafe`).
- docs/PROTOCOL.md:65 gives FixedInfo without the length octet that the code and the later paragraph of the same
  section put before the Noob.
- docs/PROTOCOL.md:68-70 says that an out-of-order phase gets status 409; the code gives 400 to an unknown phase and 409
  to a Completion request without a session or an Initial request while clustered.

## Model

| member | source | states |
|---|---|---|
| `LaneRuns.RunSafety` | crates/pair-cluster/src/node.rs:237-468 | At every point of every run in which any post or reply may be lost: a joiner that has pinned has an inviter that has pinned with the same Kz; an inviter that has pinned minted the PIN the joiner was fed; each pinned exactly the bound identity in the other's PairingInfo; a wrong PIN pins nothing and registers no machine. Assumes only that the NoobIds of the two PINs do not collide. |
| `LaneRuns.RunInv` | crates/pair-cluster/src/node.rs:138-468 | The lane invariant (nothing sent, offering, keying, standing, submitting, stuck, ended, dead) holds after every run of moves. |
| `LaneRuns.StepKeeps` | crates/pair-cluster/src/node.rs:138-468 | Every move, with any delivery, any PIN and any clustered flag, keeps that invariant. |
| `LaneRuns.PinStays` | crates/pair-cluster/src/node.rs:237-304 | Once the inviter has pinned, no later move changes what it pinned. |
| `LaneRuns.InviteDriverStops` | crates/pair-cluster/src/node.rs:336-352 | Each post of `create_invite`, in any reachable lane and with any delivery, leaves it strictly fewer of at most three posts. |
| `LaneRuns.SubmitDriverStops` | crates/pair-cluster/src/node.rs:397-467 | Each post of `submit_pin` leaves it strictly fewer of at most five: four of the handshake and one that reports its end. |
| `LaneRuns.PinEntered` | crates/pair-cluster/src/node.rs:370-395 | At Waiting a six-digit PIN is taken exactly when the inviter's address is known, and the session is then ready for Completion; otherwise nothing changes. |
| `LaneRuns.PinNotTaken` | crates/pair-cluster/src/node.rs:370-395 | In every other living phase entering a PIN changes nothing, so a session is fed once. |
| `LaneSafety.InviteKeeps` | crates/pair-cluster/src/node.rs:326-366 | Whatever is lost, a move of `create_invite` goes on, dies for good, or leaves both machines at Waiting and linked, the inviter holding the minted PIN's Noob. |
| `LaneRuns.SubmitKeeps` | crates/pair-cluster/src/node.rs:397-467 | Whatever is lost and whichever PIN was entered, a move of `submit_pin` goes on, is stuck without a pin of its own, or ends with pins that agree. |
| `LaneRuns.EndedPosts` | crates/pair-cluster/src/node.rs:306-319 | The signal that reports the end at most removes the inviter's session, as ACK, FAIL, DECLINE and EXPIRED are handled. |
| `LaneSafety.FirstPost` | crates/pair-cluster/src/node.rs:160-234 | The first post opens a joiner session and brings the server's offer next, or is refused when the joiner is clustered. |
| `LaneSafety.SecondPost` | crates/pair-cluster/src/node.rs:160-234 | The second post: the peer chooses, the server accepts and sends its key, and the two machines hold the same inputs so far. |
| `LaneSafety.ThirdPost` | crates/pair-cluster/src/node.rs:326-366 | The third post: both machines wait with one secret and one transcript, the session is filed under the PIN, unless the inviter's PairingInfo is unsound, which ends the invite. |
| `LaneSafety.WrongNoobIdPost` | crates/pair-cluster/src/node.rs:424-447 | A NoobId of another Noob is refused with code 2003; the joiner tears its session down, reports an incorrect PIN and pins nothing. |
| `LaneSafety.RightNoobIdPost` | crates/pair-pairing/src/machine.rs:467-479 | The NoobId of the server's own Noob is answered with MACs; with one PIN the peer accepts them, and both machines hold the keys they derived. |
| `LanePairing.MacpHandled` | crates/pair-cluster/src/node.rs:262-302 | On the peer's MACp the inviter registers and pins the identity in the joiner's PairingInfo, or refuses that PairingInfo with status 400, or, only with two PINs, refuses with code 4001. |
| `LanePairing.PinsTogether` | crates/pair-cluster/src/node.rs:237-304 | If the last reply is lost after the inviter has pinned, what it pinned is still justified and the joiner has pinned nothing. |
| `LanePairing.MacpPost` | crates/pair-cluster/src/node.rs:403-467 | The last post pairs both sides, or ends with pins that agree; with one PIN and a sound PairingInfo it pairs both sides with one key. |
| `LaneOutcomes.HonestRun` | crates/pair-cluster/src/node.rs:326-468 | With nothing lost and the minted PIN entered, three posts, the PIN, four posts and ACK end with both machines Registered, equal MAC inputs, equal Kz in both associations and both pins, each side having pinned the other's embedded certificate, and nothing left on the joiner. |
| `LaneOutcomes.NodesPair` | crates/pair-cluster/src/node.rs:326-468 | The same between two nodes with any sound PairingInfos: each ends up with exactly what the other says of itself. |
| `LaneOutcomes.ProfilesPair` | crates/pair-cluster/src/node.rs:36-51 | The same between two node profiles whose certificates carry their UUIDs: each ends up with the PairingInfo that the other's profile shows and with its certificate, and the fingerprint it pins is the one that was shown. |
| `LaneOutcomes.PendingShowsProfile` | crates/pair-cluster/src/node.rs:196-203 | After the three posts of the invite the joiner's user is shown the UUID, name, cluster and address of the inviter's own profile. |
| `LaneOutcomes.KickoffShows` | crates/pair-pairing/src/machine.rs:668-679 | Wherever in a run a lane is after the kickoff of `submit_pin`, the joiner carries a Type 1 with state 2 and a PeerId that reads back as the one the inviter assigned. |
| `Profile.ProfileIsBound` | crates/pair-cluster/src/node.rs:36-51 | The PairingInfo of a profile whose PEM is that of a certificate with its nonempty UUID is bound to that certificate. |
| `Profile.ProfileParsesExactly` | crates/pair-cluster/src/info.rs:69-92 | What a node shows of itself is accepted by `parse_pairing_info` if and only if its UUID is nonempty and its PEM holds a certificate that carries it, and is then read back as it was shown. |
| `Profile.LoadedIsCertified` | crates/pair-trust/src/identity.rs:174-191 | An identity is what `from_pem` makes of its PEM if and only if the PEM is that of its certificate and the certificate carries its UUID. |
| `LaneOutcomes.WrongPinRun` | crates/pair-cluster/src/node.rs:424-447 | With any other valid PIN the run ends with code 2003 as an authentication failure, nothing pinned, no association on either machine, and, once FAIL has arrived, the id gone from `joiners`, `pending` and `inviters`. |
| `LaneSystem.SystemSafety` | crates/pair-cluster/src/node.rs:237-468 | The guarantees on pins of one lane hold for every invite of two nodes with any number of invites in any interleaving that share the joiner's clustered flag; what the flag decides is in `SingleCluster`. |
| `SingleCluster.LaterPinsExactly` | crates/pair-node/src/pairing.rs:7-9 | Over every continuation of every run: once the joiner is clustered, an invite that it has not pinned can still come to be pinned if and only if its first post was taken before, it has not ended, and no wrong PIN was entered. Assumes sound PairingInfos and that the NoobIds of the two PINs do not collide. |
| `SingleCluster.FrozenLanes` | crates/pair-cluster/src/node.rs:160-187 | And no other invite changes what either side has pinned, whatever comes: a clustered joiner opens no session. |
| `SingleCluster.TwoInvitesPin` | crates/pair-cluster/src/node.rs:160-187 | Two invites opened before either is paired: the first pins and raises the flag, and the second can still pin, so a node can join twice. |
| `SingleCluster.FlagFollowsPins` | crates/pair-node/src/pairing.rs:42-71 | A node that began unclustered is clustered only after some invite has been pinned, and then if every pin reaches the disk. |
| `LaneFlag.StillPinsExactly` | crates/pair-cluster/src/node.rs:160-468 | The same condition for one lane: an invite under way, with no wrong PIN entered, can still be brought to a pin while the flag is up, and nothing else can. |
| `LaneFlag.NotUnderWayKept` | crates/pair-cluster/src/node.rs:160-187 | With the flag up a lane without a live session of the joiner stays without one, move by move, and pins nothing. |
| `LaneFlag.MisfedNeverPins` | crates/pair-cluster/src/node.rs:424-447 | A lane that was fed another PIN than it minted never pins on the joiner, whatever comes. |
| `Lanes.InviteMoveIsIteration` | crates/pair-cluster/src/node.rs:336-366 | A move of the inviter is one iteration of the loop that `CreateInvite` is proved to run, and files what that loop returns. |
| `Lanes.SubmitMoveIsIteration` | crates/pair-cluster/src/node.rs:403-467 | A move of the joiner is one iteration of the loop that `SubmitPin` is proved to run, and leaves the slot, the pin and the refusal of its end. |
| `StoredSessions.SessionsStaySound` | crates/pair-cluster/src/node.rs:138-468 | After any requests, filings, PIN entries and driver iterations under an id, malformed ones included, a stored inviter has a 16-octet Noob with the NoobId and MAC input computed from it, a suite, a key pair, `dirp` 2 or 3 and state Waiting or Registered, and a stored joiner keeps its invariant. |
| `StoredSessions.EveryPairingBound` | crates/pair-cluster/src/info.rs:69-92 | Every pairing pinned in such a run has a nonempty `nodeUuid` equal to its certificate's and a nonzero admission epoch. |
| `StoredSessions.RequestsKeepSlot` | crates/pair-cluster/src/node.rs:138-319 | The same for what a node that serves any sequence of requests leaves under an id. |
| `StoredSessions.FiledIsStored` | crates/pair-cluster/src/node.rs:336-364 | Whatever the joiner answers, `create_invite` files only sessions of that form. |
| `StoredSessions.PinAlwaysTaken` | crates/pair-cluster/src/node.rs:353-360 | At Waiting `set_pin` cannot fail. |
| `StoredSessions.StoredNeverLacksOob` | crates/pair-pairing/src/machine.rs:438-441 | A stored session never answers `no OOB processed`, whatever arrives. |
| `StoredSessions.StoredPanicsExactly` | crates/pair-pairing/src/machine.rs:481-488 | A stored session panics if and only if a Type 6 without an error code and with its own PeerId arrives before any keys were derived; it is then left as it was. |
| `PendingInvites.FiledCanPanic` | crates/pair-pairing/src/machine.rs:481-488 | A session that `create_invite` files from three honest replies does panic on such a Type 6: its request gets no reply. |
| `PendingInvites.InviteIsDriven` | crates/pair-cluster/src/node.rs:336-366 | The loop of `create_invite` over the replies of a delivered invite returns exactly the session that the lane files, which holds no keys yet. |
| `PendingInvites.PeerFailsExactly` | crates/pair-pairing/src/machine.rs:619-821 | The peer answers with an error if and only if a guard of the message's handler fails, each stated on the message and the state. |
| `PendingInvites.JoinerFailsExactly` | crates/pair-cluster/src/session.rs:95-107 | A joiner's session reports an error if and only if a guard of its peer fails, or it waits without a captured inviter and the ServerInfo is absent or unsound. |
| `PendingInvites.OrphanedExactly` | crates/pair-cluster/src/node.rs:214-228 | Whatever happens under an id with a pending invite and its session, the invite stays pending without the session if and only if a request of the Initial Exchange arrives on whose message the session fails. |
| `PendingInvites.OrphanOrigin` | crates/pair-cluster/src/node.rs:160-234 | In any run, an invite that is pending without a session was left so by such an earlier request. |
| `PendingInvites.OrphanReached` | crates/pair-cluster/src/node.rs:214-228 | It happens: after a delivered invite, bytes that are no message leave the invite pending without its session. |
| `StoredSessions.CompletionKept` | crates/pair-cluster/src/node.rs:237-304 | An inviter pins only on a message whose MACp verifies under its current keys and inputs, with the Kz it holds then. |
| `KeyOrigin.KeysMadeExactly` | crates/pair-pairing/src/machine.rs:454-479 | A server answers with MACs, and makes keys from the secret, nonces and Noob it holds then, if and only if a Type 5 without an error code and with its own PeerId carries the NoobId it holds; before it has a Noob that is sixteen zeros. |
| `KeyOrigin.FiledKeysExactly` | crates/pair-cluster/src/node.rs:336-364 | `create_invite` files a session with keys if and only if a reply named that NoobId before the PIN was set, and those keys were derived from an empty Noob. |
| `KeyOrigin.KeysByOrigin` | crates/pair-pairing/src/machine.rs:190-194 | After any events under an id, the keys a stored inviter holds are exactly those derived from the secret, nonces and Noob of the last message that named its NoobId, and there are none if none did. |
| `KeyOrigin.PinKeysExactly` | crates/pair-pairing/src/machine.rs:454-463 | Those keys rest on the session's own Noob if and only if a Completion request has named its NoobId since it was filed. |
| `KeyOrigin.PinnedKeyOrigin` | crates/pair-cluster/src/node.rs:237-304 | Every pairing that an inviter pins, after any events, has the Kz of that origin: its own Noob's exactly in that case, an empty Noob's otherwise; the MACp that it accepted has its own Noob among the inputs in both cases. |
| `KeyOrigin.FiledWithoutPin` | crates/pair-cluster/src/node.rs:336-364 | It happens: hello, choice, a Type 5 with sixteen zeros and the key make `create_invite` file a session that has its PIN and holds keys derived without it. |
| `KeyOrigin.HeldKeysPair` | crates/pair-cluster/src/node.rs:237-304 | A stored session that holds keys, whatever their origin, pairs on the MACp under them. |
| `KeyOrigin.RegistersWithoutNoob` | crates/pair-pairing/src/machine.rs:454-504 | The machine alone even registers that way before it was given any Noob. |
| `KeyOrigin.EarlyRegistrationFails` | crates/pair-cluster/src/node.rs:346-354 | `create_invite` gives up on a server that registers on its way, so no such session is filed. |
| `KeyOrigin.PinsExactly` | crates/pair-cluster/src/node.rs:262-302 | A Completion request pins if and only if the session accepts its message and has captured an identity before, or the PeerInfo under the MAC is sound. |
| `KeyOrigin.PinnedIsMacdExactly` | crates/pair-cluster/src/session.rs:175-184 | The identity it pins is the one in the PeerInfo under the accepted MAC if and only if none was captured before or the captured one is that very one. |
| `KeyOrigin.CapturePinnedAgain` | crates/pair-cluster/src/session.rs:175-184 | It does differ: a session that has captured its joiner takes a new negotiation with any other sound PeerInfo over the Completion Exchange, accepts the MACp over that one, and pins the first joiner again. |
| `PairingNodes.PairingNode.HandleRequest` | crates/pair-cluster/src/node.rs:138-158 | A request changes the slot of its own invite id, as the step function of that slot says, and no other id's sessions or pending entry; pins, files, clustered flag and cluster id change by the pairing that the step yields, and by nothing else. |
| `PairingNodes.PairingNode.OnInitialRequest` | crates/pair-cluster/src/node.rs:161-234 | Joiner side of the Initial Exchange on the shared maps: session created on a Type 1 while not clustered, advanced, or evicted on an error, leaving `pending` as it stands. |
| `PairingNodes.PairingNode.AdmitJoiner` | crates/pair-cluster/src/node.rs:163-187 | Filing a new session keeps every other id's slot. |
| `PairingNodes.PairingNode.AdvanceJoiner` | crates/pair-cluster/src/node.rs:189-233 | The stored session is advanced in place, and the slot becomes exactly what the step function says. |
| `PairingNodes.PairingNode.OnCompletionRequest` | crates/pair-cluster/src/node.rs:237-304 | Inviter side of the Completion Exchange on the shared sessions, pinning exactly the pairing that the step yields. |
| `PairingNodes.PairingNode.OnSignal` | crates/pair-cluster/src/node.rs:306-319 | CANCEL clears the joiner's part of the id, DECLINE, FAIL and EXPIRED the inviter's, ACK nothing. |
| `PairingNodes.PairingNode.ServeAll` | crates/pair-cluster/src/node.rs:138-319 | After any interleaving of requests on the shared maps each id's slot is what its own requests alone would have left, under the clustered flags they met; those flags and the final pins, files and cluster id are what the ids' own pairings make of them, in the order of arrival and with what became of each one's write. |
| `PairingNodes.PairingNode.CreateInvite` | crates/pair-cluster/src/node.rs:326-366 | The loop over the posts files exactly the session the specification of the driver yields, under the new id only. |
| `PairingNodes.PairingNode.SubmitPin` | crates/pair-cluster/src/node.rs:370-468 | Refusals, the loop and its end: slot, result, pins, files, flag and cluster id are those of the specification of the driver, and no other id is touched. |
| `PairingNodes.PairingNode.EnterPin` | crates/pair-cluster/src/node.rs:375-395 | The checks at the head of `submit_pin`, with the slot unchanged on each refusal. |
| `PairingNodes.PairingNode.Drive` | crates/pair-cluster/src/node.rs:397-456 | The loop of `submit_pin` on the stored session; a pairing it ends in is bound to its certificate. |
| `PairingNodes.PairingNode.Conclude` | crates/pair-cluster/src/node.rs:408-468 | A pairing is pinned and clears the id, a refusal clears the id, giving up keeps the session. |
| `PairingNodes.DriveJoiner` | crates/pair-cluster/src/node.rs:403-456 | The loop equals the recursive specification of the driver, for any replies. |
| `PairingNodes.DriveSession` | crates/pair-cluster/src/node.rs:336-360 | The loop of `create_invite` on its own session equals the recursive specification. |
| `PairingNodes.PairingNode.OthersKept` | crates/pair-cluster/src/node.rs:109-127 | If the maps differ only at one id and no object of another id changed, all other slots are as before: no two ids share a session. |
| `Node.RefusalsInFull` | crates/pair-cluster/src/node.rs:138-252 | The status, the echoed id and phase, and the unchanged slot of each refusal that no session sees: no invite id, an unknown phase, an unknown joiner session, a clustered joiner, a Completion request without a session. |
| `Node.AnswersInFull` | crates/pair-cluster/src/node.rs:189-304 | What a session says becomes status 200 with its message, its error 400 without one, and a panic no reply; the empty kickoff is answered with a bare Type 1 and changes nothing. |
| `Node.SignalsInFull` | crates/pair-cluster/src/node.rs:306-319 | Each signal by its word: which of the three entries of the id it clears, and the bare status 200 that answers it. |
| `Node.PostedInFull` | crates/pair-cluster/src/http.rs:23-60 | A post succeeds on any status of the 200s, and on 409 exactly if the envelope is a rejection. |
| `Session.JoinerSession.OnInitial` | crates/pair-cluster/src/session.rs:95-107 | The session advances its machine in place and captures the inviter once, at Waiting, from the authenticated ServerInfo; a captured identity is always bound to its certificate. |
| `Session.JoinerSession.FeedPin` | crates/pair-cluster/src/session.rs:111-113 | The PIN is taken or the session is unchanged. |
| `Session.JoinerSession.OnCompletion` | crates/pair-cluster/src/session.rs:116-118 | The machine's step, with its outcome classified. |
| `Session.InviterSession.OnInitial` | crates/pair-cluster/src/session.rs:163-165 | The machine's step, with its outcome classified. |
| `Session.InviterSession.SetPin` | crates/pair-cluster/src/session.rs:169-171 | The PIN is taken or the session is unchanged. |
| `Session.InviterSession.OnCompletion` | crates/pair-cluster/src/session.rs:175-184 | The joiner is captured once, at Registered, from the authenticated PeerInfo, and bound to its certificate. |
| `Session.StepsInFull` | crates/pair-cluster/src/session.rs:44-55 | A step shows the machine's outcome field by field, and counts as an authentication failure exactly on the codes 2003 and 4001. |
| `Info.ParsePairingInfo` | crates/pair-cluster/src/info.rs:69-92 | What is accepted names the node that its certificate certifies, with a nonzero admission epoch; which texts those are is `Info.AcceptedExactly`. |
| `Info.AcceptedExactly` | crates/pair-cluster/src/info.rs:69-92 | A text is accepted if and only if it decodes to a record with a nonempty UUID and a PEM that holds a certificate carrying that UUID, and, from version 2 on, with a nonzero epoch; what is returned is that record, with epoch 1 in place of 0. |
| `Info.PrintedInfoParses` | crates/pair-cluster/src/info.rs:59-92 | A sound PairingInfo is read back as it was printed, with the DER of its certificate. |
| `TrustSink.ClusterTrustSink.PinPeer` | crates/pair-node/src/pairing.rs:42-71 | By either branch the pin under `nodeUuid` is exactly the bound certificate; the file that the UUID leads to from `trusted/` holds its PEM, or what it held before, or what a write that broke off left; the node is clustered afterwards exactly if it was, or nothing had to be written, or the write succeeded. |
| `TrustSink.ClusterTrustSink.ClusterAdopted` | crates/pair-node/src/pairing.rs:55-61 | After a pairing that is recorded the node is clustered and, if the other side shows a nonempty cluster id, holds that id. |
| `TrustSink.ClusterTrustSink.ClusterKept` | crates/pair-node/src/pairing.rs:46-69 | After one whose copy on disk failed, flag and cluster id are as before. |
| `Invariants.ServerStepSafe` | crates/pair-pairing/src/machine.rs:283-562 | Whatever arrives at whatever state: the server keeps its invariant and never returns to Unregistered; it succeeds if and only if the message is a Type 6 without an error code, with its own PeerId and a MACp that verifies under its current keys and inputs, and then holds an association with the current Kz; an error is final, unsuccessful and coded and leaves state and association alone; it sends no other codes than 1003, 2003 and 4001; it panics exactly when it unwraps a missing key pair or missing keys, leaving everything alone. |
| `Invariants.PeerStepSafe` | crates/pair-pairing/src/machine.rs:619-852 | The same for the peer, which registers exactly when told `success`; like the server it sends no other codes than 1003, 2003 and 4001. |
| `Invariants.ServerRunInv` | crates/pair-pairing/src/machine.rs:283-562 | The server's invariant after any messages, random values and OOB inputs, and that a server that has begun stays begun. |
| `Invariants.PeerRunInv` | crates/pair-pairing/src/machine.rs:619-852 | The peer's invariant after any such run. |
| `Invariants.PeerMacpMeansVerified` | crates/pair-pairing/src/machine.rs:790-821 | A peer sends its MACp only after the server's NoobId and MACs verified under its own Noob and inputs, and it is computed under the keys the peer then holds. |
| `Transcript.ServerAcceptanceAgrees` | crates/pair-pairing/src/machine.rs:467-504 | Whatever was delivered to either machine before, and whatever else the message says: if a server accepts the MACp a peer computed, all fifteen inputs agree on both sides, absent being the same as `""`, and so does Kmp, unless HMAC collides. |
| `Transcript.ServerAcceptanceFixesKz` | crates/pair-pairing/src/machine.rs:481-515 | And the association the server makes holds the Kz the peer derives, and all seven keys agree, unless SHA-256 collides on the two block-9 inputs from which the server, when it last derived its keys, and the peer computed Kmp. |
| `Transcript.PeerAcceptanceAgrees` | crates/pair-pairing/src/machine.rs:790-821 | If a peer accepts the MACs a server computed, all fifteen inputs and all seven keys agree. |
| `Transcript.ServerMacsOrigin` | crates/pair-pairing/src/machine.rs:467-479 | A MACs that a server sends covers the inputs it holds, under keys derived on the spot. |
| `Transcript.ServerRunTexts` | crates/pair-pairing/src/machine.rs:166-198 | In every run the server's MAC inputs are absent or JSON text, so the array over them is unambiguous. |
| `Transcript.PeerRunTexts` | crates/pair-pairing/src/machine.rs:166-198 | The same for the peer. |
| `Transcript.ServerRunKeys` | crates/pair-pairing/src/machine.rs:190-194 | In every run the keys a server holds are those derived from the secret, nonces and Noob of their source. |
| `Transcript.SourceIsReached` | crates/pair-pairing/src/machine.rs:190-194 | That source is what the server held at an earlier point of the same run. |
| `Transcript.AcceptedKmpFixesKz` | crates/pair-pairing/src/kdf.rs:19-38 | One Kmp means one Kz, unless SHA-256 collides on block 9. |
| `Machines.Server.Receive` | crates/pair-pairing/src/machine.rs:283-305 | In place, with the whole new state and reaction equal to the step function: the message is dispatched as `ServerReceive` says, panics leaving the state alone. |
| `Machines.Server.OnDiscovery` | crates/pair-pairing/src/machine.rs:307-325 | In place, with the whole new state and reaction equal to the step function: the peer's state and NAI are noted and the exchange to start is chosen. |
| `Machines.Server.BuildNegotiation` | crates/pair-pairing/src/machine.rs:327-349 | In place, with the whole new state and reaction equal to the step function: the offer is stored as sent. |
| `Machines.Server.OnNegotiation` | crates/pair-pairing/src/machine.rs:351-376 | In place, with the whole new state and reaction equal to the step function: the choice is checked in the order of the code and stored only if accepted. |
| `Machines.Server.BuildKeyExchange` | crates/pair-pairing/src/machine.rs:378-396 | In place, with the whole new state and reaction equal to the step function: a key pair of the chosen suite and the nonce are stored as sent. |
| `Machines.Server.OnKeyExchange` | crates/pair-pairing/src/machine.rs:398-427 | In place, with the whole new state and reaction equal to the step function: the secret and nonce are stored and the state set to Waiting only if every field is good. |
| `Machines.Server.StartCompletion` | crates/pair-pairing/src/machine.rs:438-452 | In place, with the whole new state and reaction equal to the step function: refused without a Noob; asks for the NoobId or sends MACs. |
| `Machines.Server.OnNoobId` | crates/pair-pairing/src/machine.rs:454-465 | In place, with the whole new state and reaction equal to the step function: another NoobId is refused with code 2003. |
| `Machines.Server.BuildCompletion` | crates/pair-pairing/src/machine.rs:467-479 | In place, with the whole new state and reaction equal to the step function: keys are derived before MACs is computed and sent. |
| `Machines.Server.OnCompletion` | crates/pair-pairing/src/machine.rs:481-515 | In place, with the whole new state and reaction equal to the step function: Registered and associated only if MACp verifies. |
| `Machines.Server.CheckPeerId` | crates/pair-pairing/src/machine.rs:542-550 | In place, with the whole new state and reaction equal to the step function: the PeerId of the message matches the assigned one. |
| `Machines.Server.OobOutputWith` | crates/pair-pairing/src/machine.rs:517-527 | In place, with the whole new state and reaction equal to the step function: a 16-octet Noob is taken exactly at Waiting with direction 2 or 3. |
| `Machines.Peer.Receive` | crates/pair-pairing/src/machine.rs:619-644 | In place, with the whole new state and reaction equal to the step function: a result comes before an error, and an error before the type. |
| `Machines.Peer.OnResult` | crates/pair-pairing/src/machine.rs:646-666 | In place, with the whole new state and reaction equal to the step function: `success` registers in any state, with the current Kz or zeros. |
| `Machines.Peer.OnDiscovery` | crates/pair-pairing/src/machine.rs:668-679 | In place, with the whole new state and reaction equal to the step function: the state, and the PeerId once there is one. |
| `Machines.Peer.OnNegotiation` | crates/pair-pairing/src/machine.rs:681-729 | In place, with the whole new state and reaction equal to the step function: version, suite and direction are chosen in that order and stored only together. |
| `Machines.Peer.OnKeyExchange` | crates/pair-pairing/src/machine.rs:731-766 | In place, with the whole new state and reaction equal to the step function: secret, nonces and keys are stored and the state set to Waiting. |
| `Machines.Peer.OnNoobId` | crates/pair-pairing/src/machine.rs:777-788 | In place, with the whole new state and reaction equal to the step function: refused without a Noob. |
| `Machines.Peer.OnCompletion` | crates/pair-pairing/src/machine.rs:790-821 | In place, with the whole new state and reaction equal to the step function: NoobId and MACs are checked before MACp is sent. |
| `Machines.Peer.OobInputNoob` | crates/pair-pairing/src/machine.rs:823-833 | In place, with the whole new state and reaction equal to the step function: a 16-octet Noob is taken exactly at Waiting with direction 2 or 3. |
| `Machines.UpdateNoob` | crates/pair-pairing/src/machine.rs:184-189 | Noob, NoobId and MAC input are set together. |
| `Replies.PeerShowsItself` | crates/pair-pairing/src/machine.rs:668-679 | At any state a Type 1 is answered with the number of the peer's state, a NAI that reads back as its own, and a PeerId that reads back as its own exactly once it has one and has left Unregistered. |
| `Replies.PeerShowsItsRun` | crates/pair-pairing/src/machine.rs:668-679 | So after any run, for each of the four states that a run can reach. |
| `Replies.PeerChoosesInFull` | crates/pair-pairing/src/machine.rs:681-729 | The four refusals of a Type 2 with their texts and their order; otherwise the reply's PeerId, version, suite, direction and PeerInfo, and what is kept. |
| `Replies.PeerKeysInFull` | crates/pair-pairing/src/machine.rs:731-766 | The refusals of a Type 3; otherwise the reply carries the peer's own public key and nonce, and the secret, both nonces and Waiting are kept. |
| `Replies.PeerWaitsInFull` | crates/pair-pairing/src/machine.rs:768-788 | Types 4 and 5: the PeerId, and the NoobId once there is a Noob. |
| `Replies.PeerConfirmsInFull` | crates/pair-pairing/src/machine.rs:790-821 | Type 6: refused without a Noob, on another NoobId with 2003 and on other MACs with 4001, in this order; otherwise MACp, under Kmp and with lead 1, where MACs is under Kms and with lead 2. |
| `Replies.PeerResultInFull` | crates/pair-pairing/src/machine.rs:646-666 | A result comes before everything else in a message; `success` registers with the current Kz, or with 32 zeros if there is none. |
| `Replies.PeerRestInFull` | crates/pair-pairing/src/machine.rs:619-644 | What is no message, is an error notification, or has a type outside 1 to 6. |
| `Replies.ServerOpensInFull` | crates/pair-pairing/src/machine.rs:307-349 | A Type 1 by both sides' states: it opens the Completion Exchange with a Type 5 or 6, a wait with a Type 4, the Initial Exchange with an offer of all fields, or is refused. |
| `Replies.ServerNotesNai` | crates/pair-pairing/src/machine.rs:307-325 | The NAI that is noted is the one shown, or else the one known before, and never empty. |
| `Replies.ServerAgreesInFull` | crates/pair-pairing/src/machine.rs:351-396 | The four refusals of a Type 2 with their texts and their order; otherwise a Type 3 with the server's own key and nonce. |
| `Replies.ServerKeysInFull` | crates/pair-pairing/src/machine.rs:398-427 | The refusals of a Type 3 in their order; otherwise the end of the Initial Exchange, at Waiting, with secret and nonce kept. |
| `Replies.ServerMacsInFull` | crates/pair-pairing/src/machine.rs:454-479 | Type 5: another NoobId is refused with 2003; otherwise NoobId and MACs under keys derived on the spot. |
| `Replies.ServerRegistersInFull` | crates/pair-pairing/src/machine.rs:481-515 | Type 6: another MACp is refused with 4001; otherwise success, Registered, and an association with the PeerId, NAI, suite and Kz. |
| `Replies.ServerRestInFull` | crates/pair-pairing/src/machine.rs:283-305 | Type 4, what is no message, is an error notification, or has another type. |
| `Replies.NoobTakenInFull` | crates/pair-pairing/src/machine.rs:517-527 | Both machines take exactly a Noob of sixteen octets at Waiting with direction 2 or 3; it is the last MAC input, the NoobId is made of it, and nothing else changes but the peer's state. |
| `Replies.DerivedInFull` | crates/pair-pairing/src/machine.rs:190-194 | Kms, Kmp and Kz come from the secret, Np, Ns and the Noob, in this order, by blocks 8, 9 and 10. |
| `Replies.NewMachinesInFull` | crates/pair-pairing/src/machine.rs:236-261 | What the two machines of a pairing begin with. |
| `Verbatim.ServerInputsVerbatim` | crates/pair-pairing/src/machine.rs:327-427 | After any run each MAC input of the server is, verbatim, the field of its name in the last offer and key it sent and the last choice and key it took. |
| `Verbatim.PeerInputsVerbatim` | crates/pair-pairing/src/machine.rs:681-766 | And of the peer, in the last offer and key it took and the last choice and key it sent. |
| `Verbatim.AcceptanceMeansSameConversation` | crates/pair-pairing/src/machine.rs:481-504 | Whatever was delivered to either side before: a server that accepts the peer's MACp has sent the offer and key that the peer took and has taken the choice and key that the peer sent, every field the same text, unless HMAC collides. |
| `Verbatim.PeerAcceptanceMeansSameConversation` | crates/pair-pairing/src/machine.rs:790-821 | The same for a peer that accepts the server's MACs, unless HMAC or SHA-256 collides. |
| `Exchange.ServerOffers` | crates/pair-pairing/src/machine.rs:307-349 | A new server answers a new peer's discovery with its offer. |
| `Exchange.PeerChooses` | crates/pair-pairing/src/machine.rs:681-729 | A new peer answers that offer with version 1, P-256 and direction 2, recording the offer as sent. |
| `Exchange.ServerKeys` | crates/pair-pairing/src/machine.rs:351-396 | The server accepts that choice, and both machines hold the same inputs. |
| `Exchange.ServerWaits` | crates/pair-pairing/src/machine.rs:398-427 | After both keys both machines wait with one secret, one pair of nonces and equal inputs. |
| `Exchange.ServerChecksNoobId` | crates/pair-pairing/src/machine.rs:454-479 | The NoobId of the same Noob is answered with MACs, any other with code 2003. |
| `Exchange.SameNoobSameKeys` | crates/pair-pairing/src/machine.rs:184-194 | Linked machines with one Noob derive one set of keys and hold one set of inputs. |
| `Exchange.PeerChecksMacs` | crates/pair-pairing/src/machine.rs:790-821 | MACs verifies when the Noobs are one; otherwise it verifies or is refused with code 4001. |
| `Exchange.ServerChecksMacp` | crates/pair-pairing/src/machine.rs:481-515 | MACp verifies when the Noobs are one; otherwise it verifies or is refused with code 4001. |
| `Bargain.NegotiationAgrees` | crates/pair-pairing/src/machine.rs:351-376 | For machines of any preferences: whatever the peer answers to an offer passes all the server's checks and both record one choice; the peer refuses only when no version, no known suite or no direction is common, or for an offer with undefined direction bits. |
| `Bargain.PeerRefusesExactly` | crates/pair-pairing/src/machine.rs:681-704 | Each refusal of the peer happens exactly under its condition, in the order version, suite, direction. |
| `Bargain.PeerChoiceStands` | crates/pair-pairing/src/machine.rs:681-729 | An answer names the greatest common version, the server's first common known suite and a direction the server accepts. |
| `Negotiation.MaxCommon` | crates/pair-pairing/src/machine.rs:888-896 | The result is the greatest version that both lists hold, and none exactly when they share none. |
| `Negotiation.BestVersion` | crates/pair-pairing/src/machine.rs:888-896 | The loop over a mutable best computes that greatest common version. |
| `Negotiation.FirstSupported` | crates/pair-pairing/src/machine.rs:897-902 | The result is the first id in the server's order that the peer lists and the program knows. |
| `Negotiation.DirRefusalExact` | crates/pair-pairing/src/machine.rs:903-914 | A refusal of a direction means that no direction is acceptable if and only if the offer is 1 to 3 or has neither low bit; what is chosen is acceptable. |
| `Negotiation.DirRefusedWithCommonDirection` | crates/pair-pairing/src/machine.rs:903-914 | A concrete offer, 6, that is refused although the server would accept direction 2. |
| `Negotiation.SuitesInFull` | crates/pair-pairing/src/suite.rs:20-26 | Ids with low octet 1 are X25519, with low octet 2 P-256, and no others are known. |
| `Negotiation.DirectionsInFull` | crates/pair-pairing/src/machine.rs:366-369 | Direction 1 needs the first bit of the offer, 2 the second, 3 either, and there are no others. |
| `Negotiation.PreferenceIsTaken` | crates/pair-pairing/src/machine.rs:903-914 | The preferred direction is taken whenever the offer has it, and 2 of both without a preference. |
| `MacArray.NoobArray` | crates/pair-pairing/src/mac.rs:75-105 | The pushing loop builds the bracketed, comma-joined text of 17 elements, whose places are fixed by `MacArray.ArrayInFull`. |
| `MacArray.ArraySplits` | crates/pair-pairing/src/mac.rs:64-105 | If every field is absent or the text of any JSON value, splitting at the commas outside strings and brackets returns exactly the 17 elements that were joined. |
| `MacArray.ArrayInFull` | crates/pair-pairing/src/mac.rs:64-105 | Whatever the fields hold, the array is the text of 17 elements, of which each is spelled out: 0 the lead, 1 Vers, up to 11 the literal `0`, 12 PKs, 13 Ns, 14 PKp, 15 Np and 16 the Noob, an absent one being `""`. |
| `MacArray.ArrayFields` | crates/pair-pairing/src/mac.rs:64-105 | If every field is absent or a JSON value, splitting the array gives each field at that place. |
| `MacArray.ArrayUnambiguous` | crates/pair-pairing/src/mac.rs:64-105 | Equal arrays have the same lead and the same fifteen fields. |
| `JsonText.JsonIsElement` | crates/pair-pairing/src/machine.rs:139-147 | The text of every value of the RFC 8259 grammar scans as one element, without a separating comma. |
| `MacArray.MacEqual` | crates/pair-pairing/src/mac.rs:30-39 | Accumulating all differences accepts exactly equal octet strings. |
| `Primitives.ComputeMac` | crates/pair-pairing/src/mac.rs:109-111 | HMAC over the array with the lead printed in decimal. |
| `Primitives.MacInFull` | crates/pair-pairing/src/mac.rs:75-111 | So a MAC is the HMAC of the bracketed text of those 17 elements, each at the place of section 3.3.2 of RFC 9140. |
| `Primitives.ComputeNoobId` | crates/pair-pairing/src/mac.rs:123-132 | The first 16 octets of the hash of the two-element array. |
| `Primitives.NoobIdInFull` | crates/pair-pairing/src/mac.rs:123-132 | That array splits into exactly the text `"NoobId"` and the Noob, and has no other characters. |
| `Primitives.EqualMacsAgree` | crates/pair-pairing/src/mac.rs:109-111 | Equal MACs have equal keys and equal inputs, unless HMAC collides. |
| `Kdf.OneStepKdf` | crates/pair-pairing/src/kdf.rs:25-38 | For every length the 32-bit counter allows, the loop yields exactly that many octets, octet j being octet j mod 32 of the hash of block j / 32, whose input is laid out as `Kdf.BlockHashes` says. |
| `Kdf.BlockHashes` | crates/pair-pairing/src/kdf.rs:25-38 | Whole block i of the output is the hash of octets of which the first four are the number i + 1, most significant first, the next are Z, and the rest FixedInfo. |
| `Kdf.BlockIsHash` | crates/pair-pairing/src/kdf.rs:25-38 | Whole block i, for every length, is the hash of the input of block i, which `Kdf.BlockHashes` lays out. |
| `Kdf.ShorterIsPrefix` | crates/pair-pairing/src/kdf.rs:25-38 | A shorter output is a prefix of a longer one. |
| `Kdf.FixedInfoPlaces` | crates/pair-pairing/src/kdf.rs:47-55 | Octets 0 to 7 of FixedInfo are `EAP-NOOB`, then come Np, Ns, the Noob's length modulo 256, and the Noob, each at its place. |
| `Kdf.KeysInFull` | crates/pair-pairing/src/kdf.rs:57-90 | Each of the seven keys is one hash or two end to end, each over the block number on four octets, Z, `EAP-NOOB`, Np, Ns, the length octet and the Noob. |
| `Kdf.EapNoobFixedInfo` | crates/pair-pairing/src/kdf.rs:47-55 | The buffer is the algorithm id, Np, Ns, the one-octet length and the Noob. |
| `Kdf.FixedInfoInjective` | crates/pair-pairing/src/kdf.rs:47-55 | With nonces of fixed lengths FixedInfo determines both nonces and the Noob. |
| `Kdf.FixedInfoDetermines` | crates/pair-pairing/src/kdf.rs:47-55 | Between Noobs of one length FixedInfo is equal if and only if the two nonces laid end to end and the Noobs are. |
| `Kdf.FixedInfoEqualExactly` | crates/pair-pairing/src/kdf.rs:47-55 | Between Noobs of any two lengths, such as none and the sixteen octets of a PIN: it is equal if and only if those are, or the longer Noob with its length octet lies across the end of the other side's nonces, its length octet and its Noob. |
| `Kdf.FromOutput` | crates/pair-pairing/src/kdf.rs:73-90 | The seven keys have their lengths and, laid end to end, are the first 320 octets; a shorter output is refused. |
| `Kdf.SplitUnique` | crates/pair-pairing/src/kdf.rs:57-90 | No other split has those lengths. |
| `Kdf.DeriveCompletion` | crates/pair-pairing/src/kdf.rs:19-22 | The composition yields that split of the 320-octet output, so the keys of `Kdf.KeysInFull`. |
| `Kdf.KmpFixesKeys` | crates/pair-pairing/src/kdf.rs:19-38 | Agreement on Kmp is agreement on all seven keys, unless SHA-256 collides on block 9. |
| `Kdf.KmsFixesKeys` | crates/pair-pairing/src/kdf.rs:19-38 | The same for Kms and block 8. |
| `Pin.NoobInjective` | crates/pair-pairing/src/pin.rs:11-27 | Different valid PINs have different Noobs. |
| `Pin.NoobValue` | crates/pair-pairing/src/pin.rs:21-27 | A valid PIN's Noob is the big-endian number that its digits denote. |
| `Pin.PinsInFull` | crates/pair-pairing/src/pin.rs:11-27 | A PIN is valid exactly if it is six of the characters 0 to 9, and the first twelve octets of its Noob are zero. |
| `Framing.Encode` | crates/pair-rpc/src/framing.rs:26-47 | The filled buffer is the frame of the scheme. |
| `Framing.Reader.ReadFrame` | crates/pair-rpc/src/framing.rs:50-59 | Reading consumes the stream exactly as the specification of the scheme says. |
| `Framing.Reader.ReadLine` | crates/pair-rpc/src/framing.rs:62-82 | The loop skips blank lines, drops one trailing CR and stops after the line feed. |
| `Framing.Reader.ReadLenPrefixed` | crates/pair-rpc/src/framing.rs:84-95 | An end inside the prefix is a clean end, an end inside the body an error. |
| `Framing.Reader.ReadContentLength` | crates/pair-rpc/src/framing.rs:97-129 | The loop stops right after the blank line or beyond 8192 octets; the last length field decides. |
| `FramingProofs.LineRoundTrip` | crates/pair-rpc/src/framing.rs:28-33 | A body comes back through JSON lines if and only if it is nonempty, has no line feed and does not end in CR. |
| `FramingProofs.PrefixRoundTrip` | crates/pair-rpc/src/framing.rs:34-39 | A body comes back through the length prefix if and only if its length is below 2^32. |
| `FramingProofs.ContentRoundTrip` | crates/pair-rpc/src/framing.rs:40-45 | A body of any length an address space holds comes back through Content-Length. |
| `FramingProofs.FrameRoundTrip` | crates/pair-rpc/src/framing.rs:26-129 | One read returns the frame that was written and consumes nothing after it. |
| `FramingProofs.StreamRoundTrip` | crates/pair-rpc/src/framing.rs:26-129 | For every number of frames, reading the concatenation returns exactly the bodies in order and then the end, as often as asked. |
| `FramingProofs.FramesInFull` | crates/pair-rpc/src/framing.rs:26-47 | What each scheme writes, octet by octet: the line feed, the four length octets, the header text. |
| `FramingProofs.UnendedLine` | crates/pair-rpc/src/framing.rs:62-70 | A last line without a line feed is returned as it is, and the end comes after it. |
| `FramingProofs.BlankLinesSkipped` | crates/pair-rpc/src/framing.rs:73-79 | Empty lines, and lines that are only a CR, are passed over. |
| `FramingProofs.PrefixInFull` | crates/pair-rpc/src/framing.rs:84-95 | An end within the four length octets is a clean end, one within the body an error, and the length is read most significant octet first. |
| `FramingProofs.LastFieldDecides` | crates/pair-rpc/src/framing.rs:118-124 | Of several header lines with a length the last decides, and one that is no number leaves none. |
| `FramingProofs.ContentCut` | crates/pair-rpc/src/framing.rs:97-117 | A header that never gets to its blank line ends in a clean end, an empty body, or, beyond 8192 octets, an error. |
| `Decimal.ShowNatInFigures` | crates/pair-rpc/src/framing.rs:40-45 | Digit i from the right of a printed number counts the i-th power of ten. |
| `Decimal.ShowIntInFigures` | crates/pair-pairing/src/mac.rs:109-111 | A negative number is printed as a minus sign and its magnitude. |
| `Decimal.ParseInFigures` | crates/pair-rpc/src/framing.rs:121-123 | A text without a digit, or with anything but digits after at most one plus sign, is no number. |
| `Base64.Base64Decode` | crates/pair-trust/src/identity.rs:235-260 | The loop with its 32-bit accumulator, reverse table and pending bits decodes like unbounded arithmetic on the whole sextet string, and fails exactly on a character outside the alphabet. |
| `Base64.FilledAndPending` | crates/pair-trust/src/identity.rs:241-258 | Between characters fewer than eight bits are pending, and none is lost. |
| `Base64.Accumulate` | crates/pair-trust/src/identity.rs:252-256 | What is cut off at 32 bits is never needed: the octet produced and the bits left are those of the exact number. |
| `Base64.DecodeInvertsEncode` | crates/pair-trust/src/identity.rs:235-260 | Decoding inverts the encoding of section 4 of RFC 4648 for every octet string, whatever white space is interleaved. |
| `Base64.AlphabetInFull` | crates/pair-trust/src/identity.rs:236-240 | A character has value i if and only if it is character i of the 64-character alphabet of RFC 4648, which is spelled out. |
| `Base64.SkippedInFull` | crates/pair-trust/src/identity.rs:245-247 | Passed over are exactly the padding character and the five ASCII white-space characters. |
| `Base64.SpelledDecodes` | crates/pair-trust/src/identity.rs:235-260 | A text of characters of that alphabet decodes to the octets of the number that their places denote. |
| `Base64.PlacesInFull` | crates/pair-trust/src/identity.rs:252-256 | Four places more are three octets more, by the bits of each place, and two or three places at the end fill one octet or two. |
| `Pem.ExtractDer` | crates/pair-trust/src/identity.rs:213-232 | The loop with its `in_block` flag collects the trimmed lines of the first block. |
| `Pem.PemRoundTrip` | crates/pair-trust/src/identity.rs:213-232 | Any nonempty DER comes back from its PEM block, with any wrapping, line endings mixed in any way, an unended last line allowed, any marker-free text before the block and anything after it. |
| `Pem.LinesOfWritten` | crates/pair-trust/src/identity.rs:216-216 | Lines written with any mixture of LF and CRLF, the last one perhaps unended, are split off again. |
| `Pem.EmptyBlockRefused` | crates/pair-trust/src/identity.rs:228-230 | A block without content is refused. |
| `Pem.BlockInFull` | crates/pair-trust/src/identity.rs:213-232 | The block whose two marker lines are spelled out, with its content on one line, gives its DER. |
| `Pem.NoBlockRefused` | crates/pair-trust/src/identity.rs:216-230 | Without a line that begins with the first marker nothing is found. |
| `Pem.TrimInFull` | crates/pair-trust/src/identity.rs:225-225 | Trimming takes white space off both ends and nothing else. |
| `Membership.PayloadInjective` | crates/pair-trust/src/membership.rs:64-100 | When the text fields are single lines, equal payloads make equal claims of one kind and version, so the four builders are injective and pairwise disjoint. |
| `Membership.PayloadEqualExactly` | crates/pair-trust/src/membership.rs:64-100 | Whatever the fields hold, two payloads are equal if and only if the claims are of one kind and version with the same numbers and their text fields, joined as lines, are one text. |
| `Membership.PayloadAmbiguousWithNewline` | crates/pair-trust/src/membership.rs:64-72 | With a line feed inside a field two different claims have one payload. |
| `Membership.PayloadsInFull` | crates/pair-trust/src/membership.rs:64-100 | The four payloads, tag by tag and line by line. |
| `Router.SelectIsFirstMinimal` | crates/pair-proxy/src/router.rs:34-62 | `select` returns the first minimal eligible candidate of one total preorder, and none exactly when none is eligible. |
| `Router.LeqIsTotalPreorder` | crates/pair-proxy/src/router.rs:34-62 | Manual, then lowest rank with unranked last, then self, then node id is a total preorder. |
| `Router.FirstMinimalUnique` | crates/pair-proxy/src/router.rs:34-62 | Only one position is first minimal. |
| `Router.SelectInFull` | crates/pair-proxy/src/router.rs:34-62 | In words of the fields: the choice is pinned or self and has the model, comes before or ties with every other such candidate, and is the first of those it ties with; none is chosen exactly when there is none. |
| `Routing.OrderFreeExact` | crates/pair-proxy/src/routing.rs:155-192 | The routing result is the same for every map iteration order if and only if at most one servable peer is manual and, without one, at most one has the lowest rank. |
| `Routing.RoutedAlikeAfterAnyRun` | crates/pair-proxy/src/routing.rs:42-101 | The same after any run of table updates. |
| `Routing.RoutingTable.CandidatesFor` | crates/pair-proxy/src/routing.rs:155-192 | The loop over an unordered map yields the local node first and then every peer once. |
| `Routing.CandidatesInFull` | crates/pair-proxy/src/routing.rs:155-192 | Every field of every candidate, and who of them may serve. |
| `Routing.UpdatesInFull` | crates/pair-proxy/src/routing.rs:42-101 | What each update leaves in every field of the entry it is about, and that it leaves all else alone. |
| `Routing.RoutingTable.SetLocalModels` | crates/pair-proxy/src/routing.rs:42-44 | In place, the update of the specification: the local models; nothing else changes. |
| `Routing.RoutingTable.UpsertPeer` | crates/pair-proxy/src/routing.rs:46-48 | In place, the update of the specification: the whole entry; nothing else changes. |
| `Routing.RoutingTable.RemovePeer` | crates/pair-proxy/src/routing.rs:50-52 | In place, the update of the specification: the entry; nothing else changes. |
| `Routing.RoutingTable.UpsertPeerMeta` | crates/pair-proxy/src/routing.rs:56-79 | In place, the update of the specification: address and pin only, keeping models and rank; nothing else changes. |
| `Routing.RoutingTable.SetPeerModels` | crates/pair-proxy/src/routing.rs:82-86 | In place, the update of the specification: the models of a known peer; nothing else changes. |
| `Routing.RoutingTable.SetPeerPriority` | crates/pair-proxy/src/routing.rs:97-101 | In place, the update of the specification: the rank of a known peer; nothing else changes. |
| `PinStore.PeerPinStore.PinCert` | crates/pair-trust/src/pin.rs:30-43 | The certificate is filed under its own UUID and every entry keeps matching its key; one without a UUID is refused. |
| `PinStore.PeerPinStore.IsPinned` | crates/pair-trust/src/pin.rs:46-48 | The scan over all entries agrees with looking up the certificate's own UUID. |
| `PinStore.PeerPinStore.Remove` | crates/pair-trust/src/pin.rs:54-56 | Exactly that entry goes and is returned. |
| `PinStore.ScanMeansLastPinned` | crates/pair-trust/src/pin.rs:30-56 | After any run of pins and removals the scan finds exactly the certificates that the last operation on their UUID pinned. |
| `PinStore.FingerprintInFull` | crates/pair-trust/src/identity.rs:150-154 | A fingerprint is `sha256:` and two lower-case hexadecimal digits for each octet of the hash, the high half first. |
| `ClusterDir.LoadTrustedInto` | crates/pair-trust/src/cluster_dir.rs:43-63 | The loop over the listing pins what the specification of loading says and counts exactly the files that pinned. |
| `ClusterDir.Directory.AddTrustedPeer` | crates/pair-trust/src/cluster_dir.rs:67-79 | Pinned first and then written where the UUID leads when it is joined to the directory; nothing changes when the certificate is refused; when the write fails the pin stays, and the file is as it was or as the broken write left it. |
| `ClusterDir.AgreeExactly` | crates/pair-trust/src/cluster_dir.rs:43-63 | For any pins and any files: every listing order of the directory reloads exactly the pins if and only if each pin is given by some certificate file and each certificate file that gives a pin gives one that is pinned. |
| `ClusterDir.RunAgreesExactly` | crates/pair-trust/src/cluster_dir.rs:19-79 | So after any run of additions, whatever became of each write, with restarts anywhere between. |
| `ClusterDir.ReloadAgreesExactly` | crates/pair-trust/src/cluster_dir.rs:43-63 | A restart brings memory and disk into agreement if and only if the files that give one UUID give one certificate. |
| `ClusterDir.RefusedWriteExactly` | crates/pair-trust/src/cluster_dir.rs:74-77 | A refused write leaves an agreement in place if and only if that very certificate was pinned already. |
| `ClusterDir.BrokenWriteExactly` | crates/pair-trust/src/cluster_dir.rs:74-77 | A write that breaks off and leaves no certificate leaves it in place if and only if other files of the directory give the one added and every other pin. |
| `ClusterDir.RunMirrors` | crates/pair-trust/src/cluster_dir.rs:67-79 | After any additions that were all written, and any restarts, the file of each pin is there, and each such file, as each certificate file of the directory, holds the pinned certificate of a UUID that leads to it. |
| `ClusterDir.ReloadRebuilds` | crates/pair-trust/src/cluster_dir.rs:19-63 | Then reloading in any listing order rebuilds exactly the pins whose own file is a certificate file of the directory itself and still holds them. |
| `ClusterDir.MemoryAndDiskAgree` | crates/pair-trust/src/cluster_dir.rs:19-79 | And it rebuilds the pin map if and only if every pinned UUID leads to a certificate file of the directory itself and no two of them to one file. |
| `ClusterDir.AddedAgreeExactly` | crates/pair-trust/src/cluster_dir.rs:67-79 | Without a restart between, that is the same condition on the added UUIDs. |
| `ClusterDir.PlainUuidsAgree` | crates/pair-trust/src/cluster_dir.rs:67-79 | It holds, restarts or not, when every added UUID is nonempty and has no `/`, and then no pin is ever lost. |
| `ClusterDir.GivesInFull` | crates/pair-trust/src/cluster_dir.rs:43-63 | A file gives a pin if and only if its name is something before `.crt` or `.pem` and its text holds a certificate with that UUID. |
| `ClusterDir.CountInFull` | crates/pair-trust/src/cluster_dir.rs:43-63 | What a load counts is the number of files that give a pin. |
| `ClusterDir.ParentLeaves` | crates/pair-trust/src/cluster_dir.rs:77-77 | A UUID that begins with `../` leads where the rest leads from the directory above. |
| `ClusterDir.AbsoluteLeaves` | crates/pair-trust/src/cluster_dir.rs:77-77 | An absolute UUID leads where the rest leads from the root, wherever the directory is. |
| `ClusterDir.DotShares` | crates/pair-trust/src/cluster_dir.rs:77-77 | A UUID that begins with `./` leads where the rest leads from the directory, which is the file of the rest unless that is absolute. |
| `LostPins.EmptyUuidIsLost` | crates/pair-trust/src/cluster_dir.rs:50-53 | An added certificate with an empty UUID is pinned and written, and a reload does not rebuild the pins. |
| `LostPins.ParentUuidIsLost` | crates/pair-trust/src/cluster_dir.rs:77-77 | One with the UUID `../node` is pinned, is not rebuilt, and replaces `node.crt`. |
| `LostPins.AbsoluteUuidIsLost` | crates/pair-trust/src/cluster_dir.rs:77-77 | One with the UUID `/tmp/x` is pinned, is not rebuilt, and is written to `/tmp/x.crt`, for every directory but `/tmp` itself. |
| `LostPins.SharedFileIsLost` | crates/pair-trust/src/cluster_dir.rs:77-77 | Of two with the UUIDs `a` and `./a` both are pinned, and a reload does not rebuild both. |
| `LostPins.RefusedIsLost` | crates/pair-trust/src/cluster_dir.rs:74-77 | One whose write is refused, whatever its UUID, is pinned and is not rebuilt. |
| `Consistency.LawsHaveAModel` | crates/pair-pairing/src/machine.rs:139-164 | The laws assumed of the cryptographic and printing primitives can all hold at once, with a digest that takes all PINs apart and a certificate for every UUID. |
| `Witnesses.NodesDoPair` | crates/pair-cluster/src/node.rs:326-468 | Two concrete nodes pair for every PIN, so the premises of the honest run are met. |
| `Witnesses.NodesDoRefuse` | crates/pair-cluster/src/node.rs:424-447 | They refuse every wrong PIN, so the premises of that run, the absence of a collision included, are met for every two PINs. |
| `Witnesses.OrphanAndPanicHappen` | crates/pair-cluster/src/node.rs:160-304 | Under those nodes an invite does come to be pending without its session, and a filed session does panic. |
| `Witnesses.KeysWithoutPin` | crates/pair-cluster/src/node.rs:336-364 | Under those primitives, for every PIN, `create_invite` files a session that holds keys derived without it. |
| `Witnesses.PairsWithoutPin` | crates/pair-cluster/src/node.rs:237-304 | Such a session pairs under those keys with the joiner whose PeerInfo is under the MAC. |
| `Witnesses.PinsOldIdentity` | crates/pair-cluster/src/session.rs:175-184 | And after a new negotiation it pins that joiner again, although another node's PeerInfo is under the MAC. |
| `Witnesses.NodesPairTwice` | crates/pair-cluster/src/node.rs:160-187 | Those nodes do pair on two invites, the second while the joiner is clustered. |
| `HonestTranscript.PremisesAreMet` | crates/pair-pairing/src/machine.rs:467-504 | The honest run of the two machines meets every premise of the three acceptance lemmas of `Transcript`, for any PairingInfos and any Noob. |
| `Witnesses.TranscriptsAgree` | crates/pair-pairing/src/machine.rs:467-504 | So they are met under the concrete primitives, for every PIN. |
| `Witnesses.CertificateHas` | crates/pair-trust/src/cluster_dir.rs:72-74 | Under those primitives there are certificates with the UUIDs of `LostPins`. |

## Left out

- HTTP, TLS, mDNS, dashboard, telemetry and process start-up: a post becomes a delivery to the other node's handler, or its loss.
- The insides of SHA-256, HMAC, X25519, P-256, Ed25519, X.509 parsing and random numbers: functions and parameters, as said above.
- JSON decoding itself: messages are values whose raw fields are verbatim text; that `RawValue` holds JSON text is the hypothesis `Invariants.WireOk`.
- `SleepTime`, which the server never sets, and the Hoob fingerprint, which no step checks.
- Reconnect (Types 7 to 9) and the unused `messages.rs` and `Phase`: not part of the state machines.
- Interleaving finer than one handled request or one driver iteration. A driver that goes on with a session after CANCEL removed it from the map is not modelled.
- Signals other than the joiner's own ACK and FAIL in lanes: nobody else posts to the two nodes there. Requests from anybody, with any signal, are covered by `PairingNodes` and `StoredSessions`.
- Signing and verifying of membership payloads, and tombstones themselves: only the signed bytes are modelled.
- The identity half of `load_or_init` beyond `from_pem`, the minting of an identity, and why a write fails: what becomes of each one is a parameter. Links and file names that differ only in case are not modelled; a path is followed component by component.
- Read errors of the stream other than its end, and header octets beyond ASCII, on which `String::from_utf8_lossy` is a parameter.
- `pinned_peers`, `peer_count`, `get`, `snapshot`, `len`, `iter`, `to_json` beyond printing: field picking.
- Kdf.OneStepKdf: requires a length of at most 32 * (2^32 - 2), beyond which the code's 32-bit counter overflows.
- Lanes.InviteMoveIsIteration: one post of the loop; the class method runs over posts whose outcomes are given, so posting itself is the lane's part.
- PairingNodes.PairingNode.SubmitPin: the posts of ACK and FAIL after the end are not part of the method; they are moves of `Lanes`.
- LaneSystem.SystemSafety: the system keeps the lanes of different invites apart by construction, and its conclusion does not depend on the flag; that the shared maps of a node keep them apart is `PairingNodes.PairingNode.ServeAll`, and what the flag decides is `SingleCluster.LaterPinsExactly`.
- KeyOrigin.FiledWithoutPin: the joiner there is given by its replies, of which the modelled peer sends no such Type 5 by itself.
- Framing.Reader.ReadFrame: the stream is given whole, so waiting for octets is not modelled.
