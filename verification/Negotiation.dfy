/** Choosing a version, a cryptosuite and an OOB direction (crates/pair-pairing/src/machine.rs, suite.rs). */
module Negotiation {
  import opened Octets

  datatype Suite = X25519 | P256

  /** `Suite::from_id(c as u8)`: only the low octet of the 64-bit id is looked at. */
  function SuiteFromId(id: int): Option<Suite> {
    if id % 256 == 1 then Some(X25519) else if id % 256 == 2 then Some(P256) else None
  }

  /** The greatest version both lists hold. */
  function MaxCommon(server: seq<int>, peer: seq<int>): (best: Option<int>)
    ensures best.None? ==> forall v :: v in server ==> v !in peer
    ensures best.Some? ==> best.value in server && best.value in peer
    ensures best.Some? ==> forall v :: v in server && v in peer ==> v <= best.value
  {
    if |server| == 0 then None
    else
      var v := server[|server| - 1];
      var best := MaxCommon(server[..|server| - 1], peer);
      assert server == server[..|server| - 1] + [v];
      if v in peer && (best.None? || v >= best.value) then Some(v) else best
  }

  method BestVersion(server: seq<int>, peer: seq<int>) returns (best: Option<int>)
    ensures best == MaxCommon(server, peer)
  {
    best := None;
    for i := 0 to |server|
      invariant best == MaxCommon(server[..i], peer)
    {
      assert server[..i + 1][..i] == server[..i];
      if server[i] in peer && (best.None? || server[i] >= best.value) {
        best := Some(server[i]);
      }
    }
    assert server[..|server|] == server;
  }

  /** The id is one this node can use against `peer`'s list. */
  predicate Usable(id: int, peer: seq<int>) {
    id in peer && SuiteFromId(id).Some?
  }

  /** `i` is the first place in the server's order that is usable against the peer's list. */
  predicate IsFirstUsable(server: seq<int>, peer: seq<int>, i: nat) {
    i < |server| && Usable(server[i], peer) && forall j :: 0 <= j < i ==> !Usable(server[j], peer)
  }

  /** The first id in the server's order that the peer lists and the program knows. */
  function FirstSupported(server: seq<int>, peer: seq<int>): (chosen: Option<int>)
    ensures chosen.None? ==> forall i :: 0 <= i < |server| ==> !Usable(server[i], peer)
    ensures chosen.Some? ==> exists i: nat :: IsFirstUsable(server, peer, i) && server[i] == chosen.value
  {
    if |server| == 0 then None
    else if Usable(server[0], peer) then
      assert IsFirstUsable(server, peer, 0);
      Some(server[0])
    else
      var rest := FirstSupported(server[1..], peer);
      SkipUnusable(server, peer);
      rest
  }

  lemma SkipUnusable(server: seq<int>, peer: seq<int>)
    requires |server| > 0 && !Usable(server[0], peer)
    ensures forall i: nat :: IsFirstUsable(server[1..], peer, i) ==> IsFirstUsable(server, peer, i + 1)
    ensures forall i :: 1 <= i < |server| ==> server[i] == server[1..][i - 1]
  {
    forall i: nat | IsFirstUsable(server[1..], peer, i)
      ensures IsFirstUsable(server, peer, i + 1)
    {
      assert server[i + 1] == server[1..][i];
      forall j | 0 <= j < i + 1
        ensures !Usable(server[j], peer)
      {
        assert j > 0 ==> server[j] == server[1..][j - 1];
      }
    }
  }

  function ChooseDir(serverDirs: int, prefer: int): Option<int> {
    if serverDirs == 1 then Some(1)
    else if serverDirs == 2 then Some(2)
    else if serverDirs == 3 then Some(if prefer == 1 || prefer == 2 then prefer else 2)
    else None
  }

  /** `dirp & dirs != 0 && (1..=3).contains(&dirp)`: only the two low bits of `dirs` can matter. */
  predicate DirAccepted(dirp: int, dirs: int) {
    1 <= dirp <= 3 && ((dirp % 2 == 1 && dirs % 2 == 1) || (dirp >= 2 && dirs / 2 % 2 == 1))
  }

  // ---- the offering server's checks on what the peer chose ----

  predicate VersionAccepted(verp: int, versions: seq<int>) {
    verp in versions
  }

  predicate SuiteAccepted(csp: int, cryptosuites: seq<int>) {
    csp in cryptosuites && SuiteFromId(csp).Some?
  }

  /** A refusal of versions or suites means there is no common one. */
  lemma RefusalMeansNothingCommon(versions: seq<int>, suites: seq<int>, peerVersions: seq<int>, peerSuites: seq<int>)
    ensures MaxCommon(versions, peerVersions).None? <==> forall v :: v in versions ==> v !in peerVersions
    ensures FirstSupported(suites, peerSuites).None? <==>
              forall i :: 0 <= i < |suites| ==> !Usable(suites[i], peerSuites)
  {
  }

  /**
   * A refusal of directions means no direction is acceptable, except for an offer with bits beyond
   * the two that RFC 9140 defines: those offers are refused whatever their low bits say.
   */
  lemma DirRefusalExact(dirs: int, prefer: int)
    ensures (ChooseDir(dirs, prefer).None? <==> forall d :: 1 <= d <= 3 ==> !DirAccepted(d, dirs))
            <==> 1 <= dirs <= 3 || dirs % 4 == 0
    ensures ChooseDir(dirs, prefer).Some? ==> DirAccepted(ChooseDir(dirs, prefer).value, dirs)
  {
    if dirs % 2 == 1 {
      assert DirAccepted(1, dirs);
    } else if dirs % 4 == 2 {
      assert DirAccepted(2, dirs);
    }
  }

  /** An offer of direction 6 is refused although the server would accept direction 2. */
  lemma DirRefusedWithCommonDirection()
    ensures ChooseDir(6, 2).None? && DirAccepted(2, 6)
  {
  }

  // ---- in full ----

  /** Suite 1 is X25519 and suite 2 P-256, for every id with that low octet; no other is known. */
  lemma SuitesInFull(id: int)
    ensures SuiteFromId(1) == Some(X25519) && SuiteFromId(2) == Some(P256)
    ensures SuiteFromId(id).Some? <==> id % 256 in {1, 2}
    ensures SuiteFromId(id) == SuiteFromId(id + 256)
  {
  }

  /** Direction 1 needs the first bit of the offer, direction 2 the second, direction 3 either. */
  lemma DirectionsInFull(dirs: int)
    ensures DirAccepted(1, dirs) <==> dirs % 2 == 1
    ensures DirAccepted(2, dirs) <==> dirs / 2 % 2 == 1
    ensures DirAccepted(3, dirs) <==> DirAccepted(1, dirs) || DirAccepted(2, dirs)
    ensures forall d :: DirAccepted(d, dirs) ==> 1 <= d <= 3
  {
  }

  /** The preferred direction is taken if the offer has it, and the second of both without a preference. */
  lemma PreferenceIsTaken(dirs: int, prefer: int)
    ensures 1 <= dirs <= 3 && prefer in {1, 2} && DirAccepted(prefer, dirs) ==> ChooseDir(dirs, prefer) == Some(prefer)
    ensures prefer !in {1, 2} ==> ChooseDir(3, prefer) == Some(2)
    ensures ChooseDir(dirs, prefer) != Some(3)
  {
  }
}
