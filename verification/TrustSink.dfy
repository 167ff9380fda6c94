/** Where a freshly paired peer is pinned (crates/pair-node/src/pairing.rs). */
module TrustSink {
  import opened Octets
  import opened Primitives
  import opened PinStore
  import opened ClusterDir
  import opened Pem
  import opened Info

  /** What a sink holds: the pins, the files of its directory's system, the flag and the adopted cluster. */
  datatype Trust = Trust(pins: Pins, files: Files, clustered: bool, clusterId: string)

  class ClusterTrustSink {
    const pins: PeerPinStore
    const clusterDir: Option<Directory>
    var clustered: bool
    var clusterId: string

    constructor (pins: PeerPinStore, clusterDir: Option<Directory>, alreadyClustered: bool)
      ensures this.pins == pins && this.clusterDir == clusterDir
      ensures clustered == alreadyClustered && clusterId == ""
    {
      this.pins, this.clusterDir := pins, clusterDir;
      clustered, clusterId := alreadyClustered, "";
    }

    /** The objects a pin may change. */
    function Parts(): set<object> {
      {this, pins} + (match clusterDir case Some(d) => {d} case None => {})
    }

    ghost predicate Valid(k: Primitives)
      reads this, pins
    {
      pins.Valid(k)
    }

    /** Without a directory there are no files of its own. */
    ghost function State(): Trust
      reads this, Parts()
    {
      Trust(pins.byUuid, match clusterDir case Some(d) => d.files case None => map[], clustered, clusterId)
    }

    /** A pairing that is pinned now counts: there is nothing to write, or it was written. */
    predicate Recorded(writing: Writing) {
      clusterDir.None? || writing == Wrote
    }

    /** The state with a pairing pinned and, as far as the system lets it, written to disk. */
    function WithPaired(k: Primitives, t: Trust, paired: Paired, writing: Writing): Trust {
      Trust(Pin(k, t.pins, paired.peerCertDer),
            match clusterDir
            case Some(d) => AfterWrite(t.files, FileOf(d.trusted, paired.peer.nodeUuid), paired.peer.cert, writing)
            case None => t.files,
            t.clustered || Recorded(writing),
            if Recorded(writing) && paired.peer.clusterId != "" then paired.peer.clusterId else t.clusterId)
    }

    /** The same for a step that pairs or does not. */
    function After(k: Primitives, t: Trust, pinned: Option<Paired>, writing: Writing): Trust {
      match pinned case Some(p) => WithPaired(k, t, p, writing) case None => t
    }

    /**
     * A bound pairing is pinned under its node UUID with exactly its certificate, by either branch; it
     * counts as success, which makes the node clustered, unless the disk copy could not be written.
     */
    method PinPeer(k: Primitives, paired: Paired, writing: Writing)
      requires Valid(k) && Bound(k, paired.peer, paired.peerCertDer)
      modifies Parts()
      ensures Valid(k)
      ensures State() == WithPaired(k, old(State()), paired, writing)
      ensures paired.peer.nodeUuid in pins.byUuid && pins.byUuid[paired.peer.nodeUuid].certDer == paired.peerCertDer
      ensures forall id :: id != paired.peer.nodeUuid ==>
                && (id in pins.byUuid <==> id in old(pins.byUuid))
                && (id in pins.byUuid ==> pins.byUuid[id] == old(pins.byUuid)[id])
      ensures clustered <==> old(clustered) || clusterDir.None? || writing == Wrote
      ensures var adopted := (clusterDir.None? || writing == Wrote) && paired.peer.clusterId != "";
        clusterId == if adopted then paired.peer.clusterId else old(clusterId)
      ensures clusterDir.Some? && writing == Wrote ==>
                var p := FileOf(clusterDir.value.trusted, paired.peer.nodeUuid);
                clusterDir.value.files == old(clusterDir.value.files)[p := Some(paired.peer.cert)]
    {
      hide PemToDer, Located;
      var result: Result<string>;
      match clusterDir {
        case Some(dir) => result := dir.AddTrustedPeer(k, paired.peer.cert, pins, writing);
        case None => result := pins.PinCert(k, paired.peerCertDer);
      }
      if result.Ok? {
        if paired.peer.clusterId != "" {
          clusterId := paired.peer.clusterId;
        }
        clustered := true;
      }
    }

    method IsClustered() returns (b: bool)
      ensures b == clustered
    {
      b := clustered;
    }

    /** After a pairing that counts the node is clustered, and in the other side's cluster if that has an id. */
    lemma ClusterAdopted(k: Primitives, t: Trust, paired: Paired, writing: Writing)
      requires clusterDir.None? || writing == Wrote
      ensures var t' := After(k, t, Some(paired), writing);
        t'.clustered && t'.clusterId == if paired.peer.clusterId == "" then t.clusterId else paired.peer.clusterId
    {
    }

    /** After one that does not count, because the copy on disk failed, both are as before. */
    lemma ClusterKept(k: Primitives, t: Trust, paired: Paired, writing: Writing)
      requires clusterDir.Some? && writing != Wrote
      ensures var t' := After(k, t, Some(paired), writing); t'.clustered == t.clustered && t'.clusterId == t.clusterId
    {
    }
  }
}
