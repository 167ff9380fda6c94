/**
 * Negotiation between two machines of any configuration: the offering server accepts whatever the peer
 * answers, and the peer refuses only what `Negotiation` says it must.
 */
module Bargain {
  import opened Octets
  import opened Decimal
  import opened Negotiation
  import opened Primitives
  import opened Protocol

  /** The server's preferences fit the 64-bit integers of the messages. */
  predicate ServerConfigOk(s: ServerState) {
    && (forall i :: 0 <= i < |s.versions| ==> IsI64(s.versions[i]))
    && (forall i :: 0 <= i < |s.cryptosuites| ==> IsI64(s.cryptosuites[i]))
    && IsI64(s.dirs)
  }

  predicate CommonVersion(s: ServerState, p: PeerState) {
    exists v :: v in s.versions && v in p.versions
  }

  predicate CommonSuite(s: ServerState, p: PeerState) {
    exists i :: 0 <= i < |s.cryptosuites| && Usable(s.cryptosuites[i], p.cryptosuites)
  }

  function Offer(k: Primitives, s: ServerState, f: Fresh): Wire {
    BuildNegotiation(k, s, f).r.outcome.send.value
  }

  /** What the peer reads is what the server offered. */
  lemma OfferRead(k: Primitives, s: ServerState, f: Fresh)
    requires TextLaws(k) && ServerConfigOk(s)
    ensures ParseStr(k, Offer(k, s, f).peerId) == Some(k.b64(f.peerId))
    ensures ParseInts(k, Offer(k, s, f).vers) == s.versions
    ensures ParseInts(k, Offer(k, s, f).cryptosuites) == s.cryptosuites
    ensures ParseInt(k, Offer(k, s, f).dirs) == Some(s.dirs)
  {
    hide ShowInts, ShowInt;
  }

  /** The peer answers exactly when there is a version and a suite in common and it can choose a direction. */
  lemma PeerRefusesExactly(k: Primitives, s: ServerState, f: Fresh, p: PeerState)
    requires TextLaws(k) && ServerConfigOk(s)
    ensures var step := PeerNegotiation(k, p, Offer(k, s, f));
      && step.r.Reacted?
      && (step.r.outcome.error.None? <==>
            CommonVersion(s, p) && CommonSuite(s, p) && ChooseDir(s.dirs, p.preferDir).Some?)
      && (step.r.outcome.error == Some("no common version") <==> !CommonVersion(s, p))
      && (step.r.outcome.error == Some("no common cryptosuite") <==> CommonVersion(s, p) && !CommonSuite(s, p))
      && (step.r.outcome.error == Some("no mutual OOB direction") <==>
            CommonVersion(s, p) && CommonSuite(s, p) && ChooseDir(s.dirs, p.preferDir).None?)
  {
    OfferRead(k, s, f);
    RefusalMeansNothingCommon(s.versions, s.cryptosuites, p.versions, p.cryptosuites);
    hide TextLaws, Offer, ParseStr, ParseInt, ParseInts, MaxCommon, FirstSupported, ChooseDir, ShowInt;
  }

  /** What the peer has chosen, as the server will read it. */
  ghost predicate Chosen(k: Primitives, s: ServerState, p: PeerState, p': PeerState, answer: Wire) {
    && ParseInt(k, answer.verp).Some? && VersionAccepted(ParseInt(k, answer.verp).value, s.versions)
    && (forall v :: v in s.versions && v in p.versions ==> v <= ParseInt(k, answer.verp).value)
    && ParseInt(k, answer.cryptosuitep) == Some(p'.csp) && SuiteAccepted(p'.csp, s.cryptosuites)
    && (exists i: nat :: IsFirstUsable(s.cryptosuites, p.cryptosuites, i) && s.cryptosuites[i] == p'.csp)
    && ParseInt(k, answer.dirp) == Some(p'.dirp) && DirAccepted(p'.dirp, s.dirs)
    && p'.m.suite == SuiteFromId(p'.csp)
  }

  /** The answer prints the choices that the peer makes and records. */
  lemma AnswerShape(k: Primitives, p: PeerState, offer: Wire)
    requires var step := PeerNegotiation(k, p, offer); step.r.Reacted? && step.r.outcome.error.None?
    ensures var step := PeerNegotiation(k, p, offer);
      var best := MaxCommon(ParseInts(k, offer.vers), p.versions);
      var first := FirstSupported(ParseInts(k, offer.cryptosuites), p.cryptosuites);
      var dir := ChooseDir(OrElse(ParseInt(k, offer.dirs), -1), p.preferDir);
      && step.r.outcome.send.Some? && best.Some? && first.Some? && dir.Some? && ParseStr(k, offer.peerId).Some?
      && step.r.outcome.send.value.verp == Some(ShowInt(best.value))
      && step.r.outcome.send.value.cryptosuitep == Some(ShowInt(first.value)) && step.p.csp == first.value
      && step.r.outcome.send.value.dirp == Some(ShowInt(dir.value)) && step.p.dirp == dir.value
      && step.p.m.suite == SuiteFromId(first.value)
      && step.r.outcome.send.value.peerId == Some(k.quote(ParseStr(k, offer.peerId).value))
  {
    hide ParseStr, ParseInts, ParseInt, MaxCommon, FirstSupported, ChooseDir, ShowInt, SuiteFromId;
  }

  lemma ChoicesFit(s: ServerState, p: PeerState)
    requires ServerConfigOk(s)
    ensures var best := MaxCommon(s.versions, p.versions); best.Some? ==> IsI64(best.value)
    ensures var first := FirstSupported(s.cryptosuites, p.cryptosuites);
      first.Some? ==> IsI64(first.value) && SuiteAccepted(first.value, s.cryptosuites)
    ensures var dir := ChooseDir(s.dirs, p.preferDir); dir.Some? ==> IsI64(dir.value)
  {
    hide MaxCommon, FirstSupported;
  }

  lemma PeerChoiceStands(k: Primitives, s: ServerState, f: Fresh, p: PeerState)
    requires TextLaws(k) && ServerConfigOk(s)
    requires var step := PeerNegotiation(k, p, Offer(k, s, f)); step.r.Reacted? && step.r.outcome.error.None?
    ensures var step := PeerNegotiation(k, p, Offer(k, s, f));
      && step.r.outcome.send.Some? && Chosen(k, s, p, step.p, step.r.outcome.send.value)
      && ParseStr(k, step.r.outcome.send.value.peerId) == Some(k.b64(f.peerId))
  {
    hide TextLaws, PeerNegotiation, Offer, MaxCommon, FirstSupported, ChooseDir, ShowInt, ShowInts, DirAccepted;
    hide SuiteFromId;
    hide SuiteAccepted, IsFirstUsable, ParseInts;
    OfferRead(k, s, f);
    AnswerShape(k, p, Offer(k, s, f));
    ChoicesFit(s, p);
    DirRefusalExact(s.dirs, p.preferDir);
    ReadBack(k, MaxCommon(s.versions, p.versions).value, k.b64(f.peerId));
    ReadBack(k, FirstSupported(s.cryptosuites, p.cryptosuites).value, "");
    ReadBack(k, ChooseDir(s.dirs, p.preferDir).value, "");
  }

  lemma ReadBack(k: Primitives, n: int, t: string)
    requires TextLaws(k) && IsI64(n)
    ensures k.parseInt(ShowInt(n)) == Some(n) && k.parseString(k.quote(t)) == Some(t)
  {
    hide ShowInt, ShowInts;
  }

  /** An answer that was chosen so passes all the server's checks. */
  lemma ServerTakesChoice(k: Primitives, s: ServerState, f: Fresh, p: PeerState, p': PeerState, answer: Wire, fs: Fresh)
    requires Chosen(k, s, p, p', answer) && ParseStr(k, answer.peerId) == Some(k.b64(f.peerId))
    ensures var step := ServerNegotiation(k, BuildNegotiation(k, s, f).s, answer, fs);
      && step.r.Reacted? && step.r.outcome.error.None? && step.r.outcome.send.Some?
      && step.r.outcome.send.value.type_ == Some(3)
      && step.s.csp == p'.csp && step.s.dirp == p'.dirp && step.s.m.suite == p'.m.suite
  {
    hide ParseStr, ParseInt, ShowInts, ShowInt, SuiteFromId, DirAccepted;
  }

  /**
   * Sound and complete: whatever two machines prefer, what the peer answers is the greatest common version, the
   * server's first common known suite and an acceptable direction, the server takes it, and both hold the same
   * choice; and the peer refuses only when nothing is common, or for an offer with undefined direction bits.
   */
  lemma NegotiationAgrees(k: Primitives, s: ServerState, f: Fresh, p: PeerState, fs: Fresh)
    requires TextLaws(k) && ServerConfigOk(s)
    ensures var chosen := PeerNegotiation(k, p, Offer(k, s, f));
      && chosen.r.Reacted?
      && if chosen.r.outcome.error.None? then
           && chosen.r.outcome.send.Some? && Chosen(k, s, p, chosen.p, chosen.r.outcome.send.value)
           && var taken := ServerNegotiation(k, BuildNegotiation(k, s, f).s, chosen.r.outcome.send.value, fs);
              && taken.r.Reacted? && taken.r.outcome.error.None?
              && taken.s.csp == chosen.p.csp && taken.s.dirp == chosen.p.dirp && taken.s.m.suite == chosen.p.m.suite
         else
           !CommonVersion(s, p) || !CommonSuite(s, p)
           || (forall d :: 1 <= d <= 3 ==> !DirAccepted(d, s.dirs)) || !(1 <= s.dirs <= 3 || s.dirs % 4 == 0)
  {
    hide TextLaws, PeerNegotiation, ServerNegotiation, BuildNegotiation, Offer, Chosen, CommonVersion;
    hide CommonSuite, ChooseDir, DirAccepted;
    PeerRefusesExactly(k, s, f, p);
    DirRefusalExact(s.dirs, p.preferDir);
    var chosen := PeerNegotiation(k, p, Offer(k, s, f));
    if chosen.r.outcome.error.None? {
      PeerChoiceStands(k, s, f, p);
      ServerTakesChoice(k, s, f, p, chosen.p, chosen.r.outcome.send.value, fs);
    }
  }
}
