/** The routing table and what a request is routed to (crates/pair-proxy/src/routing.rs). */
module Routing {
  import opened Octets
  import opened Router
  import opened Decimal

  datatype PeerEntry = PeerEntry(
    nodeId: string, host: string, ingressPort: nat, models: set<string>, pinned: bool,
    priorityRank: Option<nat>, manuallySelected: bool)

  datatype Table = Table(localModels: set<string>, peers: map<string, PeerEntry>, localId: string)

  /** One update of the table. */
  datatype Update =
    | SetLocalModels(models: set<string>)
    | UpsertPeer(entry: PeerEntry)
    | RemovePeer(nodeId: string)
    | UpsertPeerMeta(nodeId: string, host: string, ingressPort: nat, pinned: bool)
    | SetPeerModels(nodeId: string, models: set<string>)
    | SetPeerPriority(nodeId: string, rank: Option<nat>)

  function Apply(t: Table, u: Update): Table {
    match u
    case SetLocalModels(models) => t.(localModels := models)
    case UpsertPeer(entry) => t.(peers := t.peers[entry.nodeId := entry])
    case RemovePeer(id) => t.(peers := t.peers - {id})
    case UpsertPeerMeta(id, host, port, pinned) =>
      if id in t.peers then
        t.(peers := t.peers[id := t.peers[id].(host := host, ingressPort := port, pinned := pinned)])
      else t.(peers := t.peers[id := PeerEntry(id, host, port, {}, pinned, None, false)])
    case SetPeerModels(id, models) =>
      if id in t.peers then t.(peers := t.peers[id := t.peers[id].(models := models)]) else t
    case SetPeerPriority(id, rank) =>
      if id in t.peers then t.(peers := t.peers[id := t.peers[id].(priorityRank := rank)]) else t
  }

  function Run(t: Table, updates: seq<Update>): Table {
    if |updates| == 0 then t else Apply(Run(t, updates[..|updates| - 1]), updates[|updates| - 1])
  }

  /** Every entry is filed under its own node id. */
  predicate Keyed(t: Table) {
    forall id :: id in t.peers ==> t.peers[id].nodeId == id
  }

  lemma {:induction false} RunKeyed(localId: string, updates: seq<Update>)
    ensures Keyed(Run(Table({}, map[], localId), updates))
  {
    if |updates| > 0 {
      RunKeyed(localId, updates[..|updates| - 1]);
    }
  }

  // ---- candidates ----

  function SelfCandidate(t: Table, model: Option<string>, backend: string): Candidate {
    Candidate(t.localId, "http://" + backend, model.None? || model.value in t.localModels, true, false, None, false,
              None, None)
  }

  function PeerCandidate(p: PeerEntry, model: string): Candidate {
    Candidate(p.nodeId, "https://" + p.host + ":" + ShowNat(p.ingressPort), model in p.models, false, p.pinned,
              p.priorityRank, p.manuallySelected, Some(p.host), Some(p.ingressPort))
  }

  /** An order in which the map of peers may be iterated. */
  predicate IsOrder(t: Table, order: seq<string>) {
    (forall i :: 0 <= i < |order| ==> order[i] in t.peers)
    && (forall id :: id in t.peers ==> id in order)
    && (forall i, j :: 0 <= i < j < |order| ==> order[i] != order[j])
  }

  function Candidates(t: Table, model: Option<string>, backend: string, order: seq<string>): (cs: seq<Candidate>)
    requires IsOrder(t, order)
    ensures |cs| == 1 + (if model.None? then 0 else |order|)
    ensures cs[0] == SelfCandidate(t, model, backend)
    ensures forall i :: 1 <= i < |cs| ==> cs[i] == PeerCandidate(t.peers[order[i - 1]], model.value)
  {
    [SelfCandidate(t, model, backend)]
    + if model.None? then []
      else seq(|order|, i requires 0 <= i < |order| => PeerCandidate(t.peers[order[i]], model.value))
  }

  class RoutingTable {
    var localModels: set<string>
    var peers: map<string, PeerEntry>
    var localId: string

    function View(): Table
      reads this
    {
      Table(localModels, peers, localId)
    }

    ghost predicate Valid()
      reads this
    {
      Keyed(View())
    }

    constructor (localId: string)
      ensures Valid() && View() == Table({}, map[], localId)
    {
      localModels, peers, this.localId := {}, map[], localId;
    }

    method SetLocalModels(models: set<string>)
      requires Valid()
      modifies this
      ensures Valid() && View() == Apply(old(View()), Update.SetLocalModels(models))
    {
      localModels := models;
    }

    method UpsertPeer(peer: PeerEntry)
      requires Valid()
      modifies this
      ensures Valid() && View() == Apply(old(View()), Update.UpsertPeer(peer))
    {
      peers := peers[peer.nodeId := peer];
    }

    method RemovePeer(nodeId: string)
      requires Valid()
      modifies this
      ensures Valid() && View() == Apply(old(View()), Update.RemovePeer(nodeId))
    {
      peers := peers - {nodeId};
    }

    method UpsertPeerMeta(nodeId: string, host: string, ingressPort: nat, pinned: bool)
      requires Valid()
      modifies this
      ensures Valid() && View() == Apply(old(View()), Update.UpsertPeerMeta(nodeId, host, ingressPort, pinned))
    {
      if nodeId in peers {
        peers := peers[nodeId := peers[nodeId].(host := host)];
        peers := peers[nodeId := peers[nodeId].(ingressPort := ingressPort)];
        peers := peers[nodeId := peers[nodeId].(pinned := pinned)];
      } else {
        peers := peers[nodeId := PeerEntry(nodeId, host, ingressPort, {}, pinned, None, false)];
      }
    }

    method SetPeerModels(nodeId: string, models: set<string>)
      requires Valid()
      modifies this
      ensures Valid() && View() == Apply(old(View()), Update.SetPeerModels(nodeId, models))
    {
      if nodeId in peers {
        peers := peers[nodeId := peers[nodeId].(models := models)];
      }
    }

    method SetPeerPriority(nodeId: string, rank: Option<nat>)
      requires Valid()
      modifies this
      ensures Valid() && View() == Apply(old(View()), Update.SetPeerPriority(nodeId, rank))
    {
      if nodeId in peers {
        peers := peers[nodeId := peers[nodeId].(priorityRank := rank)];
      }
    }

    /** The loop over the map's values, in whatever order the map yields them. */
    method CandidatesFor(model: Option<string>, backend: string) returns (out: seq<Candidate>, ghost order: seq<string>)
      requires Valid()
      ensures IsOrder(View(), order)
      ensures out == Candidates(View(), model, backend, order)
    {
      var t := View();
      out := [SelfCandidate(t, model, backend)];
      order := [];
      if model.None? {
        order := AnyOrder(t);
        return;
      }
      var left := t.peers.Keys;
      while left != {}
        invariant left <= t.peers.Keys
        invariant IsPartialOrder(t, order, left)
        invariant out == [SelfCandidate(t, model, backend)]
          + seq(|order|, i requires 0 <= i < |order| => PeerCandidate(t.peers[order[i]], model.value))
        decreases left
      {
        var id :| id in left;
        OrderExtends(t, order, left, id);
        out := out + [PeerCandidate(peers[id], model.value)];
        order := order + [id];
        left := left - {id};
      }
    }
  }

  /** `order` lists, once each, the peers that are not in `left`. */
  ghost predicate IsPartialOrder(t: Table, order: seq<string>, left: set<string>) {
    (forall i :: 0 <= i < |order| ==> order[i] in t.peers && order[i] !in left)
    && (forall id :: id in t.peers ==> id in left || id in order)
    && (forall i, j :: 0 <= i < j < |order| ==> order[i] != order[j])
  }

  lemma OrderExtends(t: Table, order: seq<string>, left: set<string>, id: string)
    requires IsPartialOrder(t, order, left) && id in left && id in t.peers
    ensures IsPartialOrder(t, order + [id], left - {id})
  {
  }

  lemma OrderFinish(t: Table, order: seq<string>, left: set<string>) returns (o: seq<string>)
    requires left <= t.peers.Keys && IsPartialOrder(t, order, left)
    ensures IsOrder(t, o) && order <= o
    decreases left
  {
    o := order;
    if left != {} {
      var id :| id in left;
      OrderExtends(t, order, left, id);
      o := OrderFinish(t, order + [id], left - {id});
    }
  }

  lemma AnyOrder(t: Table) returns (o: seq<string>)
    ensures IsOrder(t, o)
  {
    o := OrderFinish(t, [], t.peers.Keys);
  }

  // ---- does the iteration order matter? ----

  /** The candidate a request for `model` is routed to when the peers are iterated in `order`. */
  function Chosen(t: Table, model: Option<string>, backend: string, order: seq<string>): Option<Candidate>
    requires IsOrder(t, order)
  {
    var cs := Candidates(t, model, backend, order);
    SelectIsFirstMinimal(cs);
    match Select(cs) case Some(i) => Some(cs[i]) case None => None
  }

  /** The peer can be routed to for `model`. */
  predicate CanServe(t: Table, model: string, id: string) {
    id in t.peers && t.peers[id].pinned && model in t.peers[id].models
  }

  ghost predicate NoBetterRank(t: Table, model: string, id: string) {
    CanServe(t, model, id) && t.peers[id].priorityRank.Some?
    && forall other :: CanServe(t, model, other) && t.peers[other].priorityRank.Some? ==>
         t.peers[id].priorityRank.value <= t.peers[other].priorityRank.value
  }

  predicate IsManual(t: Table, model: string, id: string) {
    CanServe(t, model, id) && t.peers[id].manuallySelected
  }

  /** At most one servable peer is manual and, when none is, at most one holds the lowest rank. */
  ghost predicate UniqueBest(t: Table, model: string) {
    && (forall a, b :: IsManual(t, model, a) && IsManual(t, model, b) ==> a == b)
    && ((forall a :: !IsManual(t, model, a)) ==>
          forall a, b :: NoBetterRank(t, model, a) && NoBetterRank(t, model, b) ==> a == b)
  }

  /** No two iteration orders route a request for `model` to different candidates. */
  ghost predicate OrderFree(t: Table, model: string, backend: string) {
    forall o, o' | IsOrder(t, o) && IsOrder(t, o') ::
      Chosen(t, Some(model), backend, o) == Chosen(t, Some(model), backend, o')
  }

  /** Two peers with equal preference, both best, are one peer. */
  lemma BestIsUnique(t: Table, model: string, backend: string, o: seq<string>, o': seq<string>, i: nat, j: nat)
    requires Keyed(t) && UniqueBest(t, model) && IsOrder(t, o) && IsOrder(t, o')
    requires FirstMinimal(Candidates(t, Some(model), backend, o), i)
    requires FirstMinimal(Candidates(t, Some(model), backend, o'), j)
    ensures Candidates(t, Some(model), backend, o)[i] == Candidates(t, Some(model), backend, o')[j]
  {
    var cs, cs' := Candidates(t, Some(model), backend, o), Candidates(t, Some(model), backend, o');
    var a, b := cs[i], cs'[j];
    var j' := PositionIn(t, model, backend, o', o, j);
    var i' := PositionIn(t, model, backend, o, o', i);
    assert Leq(a, b) && Leq(b, a);
    if Tier(a) == 0 {
      assert IsManual(t, model, o[i - 1]) && IsManual(t, model, o'[j - 1]);
    } else if Tier(a) == 3 {
      StringLeqTotal(a.nodeId, b.nodeId);
      assert o[i - 1] == a.nodeId && o'[j - 1] == b.nodeId;
    } else if Tier(a) == 1 {
      RankedPeerIsBest(t, model, backend, o, i);
      RankedPeerIsBest(t, model, backend, o', j);
    }
  }

  /** Whatever stands in one order's candidates stands somewhere in the other's. */
  lemma PositionIn(t: Table, model: string, backend: string, o: seq<string>, o': seq<string>, i: nat) returns (j: nat)
    requires IsOrder(t, o) && IsOrder(t, o') && i <= |o|
    ensures j <= |o'|
    ensures Candidates(t, Some(model), backend, o')[j] == Candidates(t, Some(model), backend, o)[i]
  {
    if i == 0 {
      j := 0;
    } else {
      assert o[i - 1] in o';
      var n :| 0 <= n < |o'| && o'[n] == o[i - 1];
      j := n + 1;
    }
  }

  lemma RankedPeerIsBest(t: Table, model: string, backend: string, o: seq<string>, i: nat)
    requires Keyed(t) && IsOrder(t, o)
    requires FirstMinimal(Candidates(t, Some(model), backend, o), i)
    requires Tier(Candidates(t, Some(model), backend, o)[i]) == 1
    ensures i > 0 && NoBetterRank(t, model, o[i - 1])
    ensures forall a :: !IsManual(t, model, a)
  {
    var cs := Candidates(t, Some(model), backend, o);
    forall other | CanServe(t, model, other)
      ensures Leq(cs[i], PeerCandidate(t.peers[other], model))
    {
      assert other in o;
      var n :| 0 <= n < |o| && o[n] == other;
      assert Eligible(cs[n + 1]);
    }
  }

  /** Some order puts `first` first. */
  lemma OrderFrom(t: Table, first: string) returns (o: seq<string>)
    requires first in t.peers
    ensures IsOrder(t, o) && |o| > 0 && o[0] == first
  {
    OrderExtends(t, [], t.peers.Keys, first);
    assert [] + [first] == [first];
    o := OrderFinish(t, [first], t.peers.Keys - {first});
  }

  /** A manual peer, and without one a peer of the lowest rank, is chosen by an order that begins with it. */
  lemma FirstIsChosen(t: Table, model: string, backend: string, id: string) returns (o: seq<string>)
    requires Keyed(t)
    requires IsManual(t, model, id) || (NoBetterRank(t, model, id) && forall a :: !IsManual(t, model, a))
    ensures IsOrder(t, o) && Chosen(t, Some(model), backend, o) == Some(PeerCandidate(t.peers[id], model))
  {
    o := OrderFrom(t, id);
    var cs := Candidates(t, Some(model), backend, o);
    forall j | 0 <= j < |cs| && Eligible(cs[j])
      ensures Leq(cs[1], cs[j])
    {
      if j > 0 {
        assert CanServe(t, model, o[j - 1]) && !IsManual(t, model, o[j - 1]) ==> !cs[j].manuallySelected;
      }
    }
    assert FirstMinimal(cs, 1);
    SelectIsFirstMinimal(cs);
    FirstMinimalUnique(cs, 1, Select(cs).value);
  }

  /** The routing result is independent of the iteration order exactly when the best peer is unique. */
  lemma OrderFreeExact(t: Table, model: string, backend: string)
    requires Keyed(t)
    ensures OrderFree(t, model, backend) <==> UniqueBest(t, model)
  {
    if UniqueBest(t, model) {
      forall o, o' | IsOrder(t, o) && IsOrder(t, o')
        ensures Chosen(t, Some(model), backend, o) == Chosen(t, Some(model), backend, o')
      {
        SameChoice(t, model, backend, o, o');
      }
    } else {
      TwoChoices(t, model, backend);
    }
  }

  lemma SameChoice(t: Table, model: string, backend: string, o: seq<string>, o': seq<string>)
    requires Keyed(t) && UniqueBest(t, model) && IsOrder(t, o) && IsOrder(t, o')
    ensures Chosen(t, Some(model), backend, o) == Chosen(t, Some(model), backend, o')
  {
    var cs, cs' := Candidates(t, Some(model), backend, o), Candidates(t, Some(model), backend, o');
    SelectIsFirstMinimal(cs);
    SelectIsFirstMinimal(cs');
    if Select(cs).Some? {
      var n := PositionIn(t, model, backend, o, o', Select(cs).value);
      BestIsUnique(t, model, backend, o, o', Select(cs).value, Select(cs').value);
    } else if Select(cs').Some? {
      var n := PositionIn(t, model, backend, o', o, Select(cs').value);
    }
  }

  lemma TwoChoices(t: Table, model: string, backend: string)
    requires Keyed(t) && !UniqueBest(t, model)
    ensures !OrderFree(t, model, backend)
  {
    var a: string, b: string;
    if a', b' :| IsManual(t, model, a') && IsManual(t, model, b') && a' != b' {
      a, b := a', b';
    } else {
      a, b :| NoBetterRank(t, model, a) && NoBetterRank(t, model, b) && a != b;
    }
    var o := FirstIsChosen(t, model, backend, a);
    var o' := FirstIsChosen(t, model, backend, b);
    assert PeerCandidate(t.peers[a], model).nodeId == a && PeerCandidate(t.peers[b], model).nodeId == b;
  }

  /** The same after any run of updates of a new table. */
  lemma RoutedAlikeAfterAnyRun(localId: string, updates: seq<Update>, model: string, backend: string)
    ensures var t := Run(Table({}, map[], localId), updates);
      OrderFree(t, model, backend) <==> UniqueBest(t, model)
  {
    RunKeyed(localId, updates);
    OrderFreeExact(Run(Table({}, map[], localId), updates), model, backend);
  }

  // ---- in full ----

  /** The peer that an update is about. */
  function About(u: Update): Option<string> {
    match u
    case SetLocalModels(_) => None
    case UpsertPeer(entry) => Some(entry.nodeId)
    case RemovePeer(id) => Some(id)
    case UpsertPeerMeta(id, _, _, _) => Some(id)
    case SetPeerModels(id, _) => Some(id)
    case SetPeerPriority(id, _) => Some(id)
  }

  /** What an update changes, and that it changes nothing else. */
  lemma UpdatesInFull(t: Table, u: Update)
    ensures var t' := Apply(t, u);
      && t'.localId == t.localId && t'.localModels == (if u.SetLocalModels? then u.models else t.localModels)
      && (forall id :: Some(id) != About(u) ==> (id in t'.peers <==> id in t.peers))
      && (forall id :: Some(id) != About(u) && id in t.peers ==> t'.peers[id] == t.peers[id])
    ensures u.UpsertPeer? ==> u.entry.nodeId in Apply(t, u).peers && Apply(t, u).peers[u.entry.nodeId] == u.entry
    ensures u.RemovePeer? ==> u.nodeId !in Apply(t, u).peers
    ensures u.UpsertPeerMeta? ==>
              var known := u.nodeId in t.peers;
              && u.nodeId in Apply(t, u).peers
              && var p := Apply(t, u).peers[u.nodeId];
                 && p.host == u.host && p.ingressPort == u.ingressPort && p.pinned == u.pinned
                 && p.models == (if known then t.peers[u.nodeId].models else {})
                 && p.priorityRank == (if known then t.peers[u.nodeId].priorityRank else None)
                 && p.manuallySelected == (known && t.peers[u.nodeId].manuallySelected)
                 && p.nodeId == if known then t.peers[u.nodeId].nodeId else u.nodeId
    ensures u.SetPeerModels? || u.SetPeerPriority? ==>
              var id := About(u).value;
              && (id in Apply(t, u).peers <==> id in t.peers)
              && (id in t.peers ==>
                    var p, was := Apply(t, u).peers[id], t.peers[id];
                    && p.models == (if u.SetPeerModels? then u.models else was.models)
                    && p.priorityRank == (if u.SetPeerPriority? then u.rank else was.priorityRank)
                    && p.nodeId == was.nodeId && p.host == was.host && p.ingressPort == was.ingressPort
                    && p.pinned == was.pinned && p.manuallySelected == was.manuallySelected)
  {
  }

  /** Who may serve a request: this node if it has the model or none is named, and each pinned peer that has it. */
  lemma CandidatesInFull(t: Table, model: Option<string>, backend: string, order: seq<string>)
    requires IsOrder(t, order)
    ensures var cs := Candidates(t, model, backend, order);
      && |cs| == 1 + (if model.None? then 0 else |order|)
      && cs[0].nodeId == t.localId && cs[0].baseUrl == "http://" + backend && cs[0].isSelf
      && (MayServe(cs[0]) <==> model.None? || model.value in t.localModels)
      && !cs[0].manuallySelected && cs[0].priorityRank.None?
      && forall i :: 1 <= i < |cs| ==>
           var c, p := cs[i], t.peers[order[i - 1]];
           && c.nodeId == p.nodeId && !c.isSelf && c.host == Some(p.host) && c.ingressPort == Some(p.ingressPort)
           && c.baseUrl == "https://" + p.host + ":" + ShowNat(p.ingressPort)
           && (MayServe(c) <==> p.pinned && model.value in p.models)
           && c.priorityRank == p.priorityRank && c.manuallySelected == p.manuallySelected
  {
    hide ShowNat;
  }
}
