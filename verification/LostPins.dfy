/** Additions whose pins a reload does not rebuild, one of each kind that there is. */
module LostPins {
  import opened Octets
  import opened Primitives
  import opened Pem
  import opened ClusterDir

  /** The run that adds and writes this one certificate. */
  function Once(pem: string): seq<Op> {
    [AddPem(pem, Wrote)]
  }

  /** Adding one certificate whose file is not a certificate file of the directory. */
  lemma OneIsLost(k: Primitives, dir: seq<string>, start: Files, pem: string, id: string)
    requires UuidOf(k, pem) == Some(id) && EmptyAt(start, dir)
    requires FileOf(dir, id).dir != dir || !IsCertFile(FileOf(dir, id).name)
    ensures var s := Run(k, dir, start, Once(pem));
      id in s.pins && !Agree(k, dir, s) && s.files == start[FileOf(dir, id) := Some(pem)]
  {
    hide Run, Agree, FileOf, IsCertFile, UuidOf;
    assert Once(pem)[0] == AddPem(pem, Wrote) && Added(k, Once(pem), id);
    RunPins(k, dir, start, Once(pem), id);
    AddedAgreeExactly(k, dir, start, Once(pem));
    assert id in iset i | Added(k, Once(pem), i);
    OneAdded(k, dir, start, pem, id);
  }

  lemma OneAdded(k: Primitives, dir: seq<string>, start: Files, pem: string, id: string)
    requires UuidOf(k, pem) == Some(id)
    ensures Run(k, dir, start, Once(pem)).files == start[FileOf(dir, id) := Some(pem)]
  {
    hide PemToDer, FileOf, PinStore.Pin;
    assert Once(pem)[..0] == [];
  }

  /** An empty UUID: its file is named `.crt`, which has no extension. */
  lemma EmptyUuidIsLost(k: Primitives, dir: seq<string>, start: Files, pem: string)
    requires UuidOf(k, pem) == Some("") && EmptyAt(start, dir)
    ensures var s := Run(k, dir, start, Once(pem));
      "" in s.pins && !Agree(k, dir, s)
  {
    PlainStays(dir, "");
    CrtExtension("");
    assert "" + ".crt" == ".crt";
    hide *;
    OneIsLost(k, dir, start, pem, "");
  }

  /** `../node`: its file is `node.crt` beside the directory, where the node keeps its own certificate. */
  lemma ParentUuidIsLost(k: Primitives, parent: seq<string>, own: string, start: Files, pem: string)
    requires UuidOf(k, pem) == Some("../node") && EmptyAt(start, parent + [own])
    ensures var s := Run(k, parent + [own], start, Once(pem));
      "../node" in s.pins && !Agree(k, parent + [own], s) && s.files == start[Path(parent, "node.crt") := Some(pem)]
  {
    hide *;
    NodeFile(parent, own);
    assert |parent| != |parent + [own]|;
    OneIsLost(k, parent + [own], start, pem, "../node");
  }

  /** An absolute UUID: its file is where the UUID says, here `/tmp/x.crt`. */
  lemma AbsoluteUuidIsLost(k: Primitives, dir: seq<string>, start: Files, pem: string)
    requires UuidOf(k, pem) == Some("/tmp/x") && EmptyAt(start, dir) && dir != ["tmp"]
    ensures var s := Run(k, dir, start, Once(pem));
      "/tmp/x" in s.pins && !Agree(k, dir, s) && s.files == start[Path(["tmp"], "x.crt") := Some(pem)]
  {
    hide *;
    TmpFile(dir);
    OneIsLost(k, dir, start, pem, "/tmp/x");
  }

  lemma NodeFile(parent: seq<string>, own: string)
    ensures FileOf(parent + [own], "../node") == Path(parent, "node.crt")
  {
    hide FileOf, Walk;
    assert "../node" == "../" + "node" && "node" + ".crt" == "node.crt" && '/' !in "node.crt";
    ParentLeaves(parent, own, "node");
    WalkEnds(parent, "node.crt");
  }

  lemma TmpFile(dir: seq<string>)
    ensures FileOf(dir, "/tmp/x") == Path(["tmp"], "x.crt")
  {
    hide FileOf, Walk;
    assert "/tmp/x" == "/" + "tmp/x" && "tmp/x" + ".crt" == "tmp" + "/" + "x.crt" && '/' !in "tmp" && '/' !in "x.crt";
    AbsoluteLeaves(dir, "tmp/x");
    WalkGoesOn([], "tmp", "x.crt");
    assert Follow([], "tmp") == ["tmp"];
    WalkEnds(["tmp"], "x.crt");
  }

  lemma SharedFile(dir: seq<string>)
    ensures FileOf(dir, "./a") == FileOf(dir, "a")
  {
    hide FileOf, Walk;
    assert "./a" == "./" + "a" && "a"[0] == 'a';
    DotShares(dir, "a");
  }

  /** Two UUIDs that name one file: the certificate added first is lost. */
  lemma SharedFileIsLost(k: Primitives, dir: seq<string>, start: Files, first: string, second: string)
    requires UuidOf(k, first) == Some("a") && UuidOf(k, second) == Some("./a") && EmptyAt(start, dir)
    ensures var s := Run(k, dir, start, [AddPem(first, Wrote), AddPem(second, Wrote)]);
      "a" in s.pins && "./a" in s.pins && !Agree(k, dir, s)
  {
    hide FileOf, Run, Agree, IsCertFile, UuidOf;
    var ops := [AddPem(first, Wrote), AddPem(second, Wrote)];
    assert ops[0].pem == first && ops[1].pem == second;
    assert Added(k, ops, "a") && Added(k, ops, "./a");
    RunPins(k, dir, start, ops, "a");
    RunPins(k, dir, start, ops, "./a");
    SharedFile(dir);
    assert "./a" != "a";
    AddedAgreeExactly(k, dir, start, ops);
    assert "a" in (iset i | Added(k, ops, i)) && "./a" in iset i | Added(k, ops, i);
  }

  /** Any UUID, if the system refuses the write: the pin is in memory alone. */
  lemma RefusedIsLost(k: Primitives, dir: seq<string>, start: Files, pem: string, id: string)
    requires UuidOf(k, pem) == Some(id) && EmptyAt(start, dir)
    ensures var s := Run(k, dir, start, [AddPem(pem, Refused)]);
      id in s.pins && !Agree(k, dir, s) && s.files == start
  {
    hide FileOf, Agree, PemToDer, PinStore.Pin;
    var before := Store(start, map[]);
    assert [AddPem(pem, Refused)][..0] == [];
    FreshAgrees(k, dir, start);
    RefusedWriteExactly(k, dir, before, pem, id);
    PinsOwn(k, pem, id);
  }

  lemma FreshAgrees(k: Primitives, dir: seq<string>, start: Files)
    requires EmptyAt(start, dir)
    ensures Agree(k, dir, Store(start, map[]))
  {
    PlainUuidsAgree(k, dir, start, []);
  }

  lemma PinsOwn(k: Primitives, pem: string, id: string)
    requires UuidOf(k, pem) == Some(id)
    ensures id in PinStore.Pin(k, map[], PemToDer(pem).value)
  {
    hide PemToDer;
  }
}
