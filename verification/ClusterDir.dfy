/** The `trusted/` directory that mirrors the pin store (crates/pair-trust/src/cluster_dir.rs). */
module ClusterDir {
  import opened Octets
  import opened Primitives
  import opened PinStore
  import opened Pem

  /** A file: the components of its directory, from the root, and its name there. */
  datatype Path = Path(dir: seq<string>, name: string)

  /** The files there are and their text; a file whose octets are not text has none. */
  type Files = map<Path, Option<string>>

  // ---- where a path leads ----

  /** The first `/` of a path, or its length. */
  function FirstSlash(path: string): (n: nat)
    ensures n <= |path| && (n < |path| ==> path[n] == '/') && forall i :: 0 <= i < n ==> path[i] != '/'
  {
    if path == "" || path[0] == '/' then 0 else 1 + FirstSlash(path[1..])
  }

  /** One component followed: `..` goes up, which the root has no more of. */
  function Follow(dir: seq<string>, component: string): seq<string> {
    if component == "" || component == "." then dir
    else if component != ".." then dir + [component]
    else if |dir| == 0 then dir
    else dir[..|dir| - 1]
  }

  function Walk(dir: seq<string>, path: string): Path
    decreases |path|
  {
    var n := FirstSlash(path);
    if n == |path| then Path(dir, path) else Walk(Follow(dir, path[..n]), path[n + 1..])
  }

  /** `Path::join` and what the system makes of it: an absolute path starts again at the root. */
  function Located(dir: seq<string>, path: string): Path {
    Walk(if path != "" && path[0] == '/' then [] else dir, path)
  }

  // ---- file names ----

  /** Where the last `.` of a name stands. */
  function LastDot(name: string): Option<nat> {
    if |name| == 0 then None
    else if name[|name| - 1] == '.' then Some(|name| - 1)
    else LastDot(name[..|name| - 1])
  }

  /** `Path::extension`: a name that only begins with a dot has none. */
  function Extension(name: string): Option<string> {
    DotInside(name);
    match LastDot(name)
    case Some(n) => if n == 0 || name == ".." then None else Some(name[n + 1..])
    case None => None
  }

  lemma DotInside(name: string)
    ensures LastDot(name).Some? ==> LastDot(name).value < |name|
  {
  }

  predicate IsCertFile(name: string) {
    Extension(name) == Some("crt") || Extension(name) == Some("pem")
  }

  /** The file of a UUID, which is joined to the directory as it is. */
  function FileOf(dir: seq<string>, id: string): Path {
    Located(dir, id + ".crt")
  }

  /** A name that ends in `.crt` is a certificate file's unless that is all of it. */
  lemma CrtExtension(stem: string)
    ensures IsCertFile(stem + ".crt") <==> stem != ""
  {
    var name := stem + ".crt";
    assert name[..|name| - 1] == stem + ".cr";
    assert (stem + ".cr")[..|stem| + 2] == stem + ".c";
    assert (stem + ".c")[..|stem| + 1] == stem + ".";
    assert LastDot(stem + ".") == Some(|stem|);
    assert LastDot(stem + ".c") == Some(|stem|);
    assert LastDot(stem + ".cr") == Some(|stem|);
    assert name[|stem| + 1..] == "crt";
  }

  lemma WalkEnds(dir: seq<string>, name: string)
    requires '/' !in name
    ensures Walk(dir, name) == Path(dir, name)
  {
    assert forall i :: 0 <= i < |name| ==> name[i] in name;
  }

  lemma WalkGoesOn(dir: seq<string>, component: string, rest: string)
    requires '/' !in component
    ensures Walk(dir, component + "/" + rest) == Walk(Follow(dir, component), rest)
  {
    var path := component + "/" + rest;
    assert forall i :: 0 <= i < |component| ==> path[i] == component[i] && component[i] in component;
    assert path[|component|] == '/';
    assert FirstSlash(path) == |component|;
    assert path[..|component|] == component && path[|component| + 1..] == rest;
  }

  /** A UUID without `/` names a file in the directory itself. */
  lemma PlainStays(dir: seq<string>, id: string)
    requires '/' !in id
    ensures FileOf(dir, id) == Path(dir, id + ".crt")
  {
    assert '/' !in id + ".crt";
    WalkEnds(dir, id + ".crt");
    assert (id + ".crt")[0] in id + ".crt";
  }

  /** One that begins with `../` leads on from the directory above. */
  lemma ParentLeaves(parent: seq<string>, own: string, rest: string)
    ensures FileOf(parent + [own], "../" + rest) == Walk(parent, rest + ".crt")
  {
    var dir := parent + [own];
    assert "../" + rest + ".crt" == ".." + "/" + (rest + ".crt");
    WalkGoesOn(dir, "..", rest + ".crt");
    assert Follow(dir, "..") == parent;
  }

  /** An absolute one leads on from the root, wherever the directory is. */
  lemma AbsoluteLeaves(dir: seq<string>, rest: string)
    ensures FileOf(dir, "/" + rest) == Walk([], rest + ".crt")
  {
    assert "/" + rest + ".crt" == "" + "/" + (rest + ".crt");
    WalkGoesOn([], "", rest + ".crt");
  }

  /** And one that begins with `./` names the file of what follows, unless that is absolute. */
  lemma DotShares(dir: seq<string>, rest: string)
    ensures FileOf(dir, "./" + rest) == Walk(dir, rest + ".crt")
    ensures rest == "" || rest[0] != '/' ==> FileOf(dir, "./" + rest) == FileOf(dir, rest)
  {
    assert "./" + rest + ".crt" == "." + "/" + (rest + ".crt");
    WalkGoesOn(dir, ".", rest + ".crt");
  }

  // ---- loading ----

  /** The certificate that a file gives to a reload: its extension is a certificate's and its text a PEM block. */
  function Carried(files: Files, p: Path): Option<Bytes>
    requires p in files
  {
    if IsCertFile(p.name) && files[p].Some? then PemToDer(files[p].value) else None
  }

  /** The file adds a pin. */
  predicate Loads(k: Primitives, files: Files, p: Path)
    requires p in files
  {
    match Carried(files, p) case Some(der) => k.nodeUuid(der).Some? case None => false
  }

  /** What loading one file adds: its certificate, if that can be pinned. */
  function LoadFile(k: Primitives, files: Files, p: Path, pins: Pins): Pins
    requires p in files
  {
    match Carried(files, p) case Some(der) => Pin(k, pins, der) case None => pins
  }

  predicate AllThere(files: Files, dir: seq<string>, names: seq<string>) {
    forall i :: 0 <= i < |names| ==> Path(dir, names[i]) in files
  }

  /** Loading the files of `dir` listed in `names`, in that order. */
  function Load(k: Primitives, files: Files, dir: seq<string>, names: seq<string>, pins: Pins): Pins
    requires AllThere(files, dir, names)
  {
    if |names| == 0 then pins
    else
      var last := |names| - 1;
      LoadFile(k, files, Path(dir, names[last]), Load(k, files, dir, names[..last], pins))
  }

  /** How many of the listed files add a pin. */
  function LoadCount(k: Primitives, files: Files, dir: seq<string>, names: seq<string>): nat
    requires AllThere(files, dir, names)
  {
    if |names| == 0 then 0
    else
      var last := |names| - 1;
      LoadCount(k, files, dir, names[..last]) + if Loads(k, files, Path(dir, names[last])) then 1 else 0
  }

  /** `read_dir` lists the files of this very directory, each once, in any order. */
  predicate IsListing(files: Files, dir: seq<string>, names: seq<string>) {
    && AllThere(files, dir, names)
    && (forall p :: p in files && p.dir == dir ==> p.name in names)
    && (forall i, j :: 0 <= i < j < |names| ==> names[i] != names[j])
  }

  method LoadTrustedInto(k: Primitives, files: Files, dir: seq<string>, names: seq<string>, pins: PeerPinStore)
    returns (n: nat)
    requires IsListing(files, dir, names) && pins.Valid(k)
    modifies pins
    ensures pins.Valid(k) && pins.byUuid == Load(k, files, dir, names, old(pins.byUuid))
    ensures n == LoadCount(k, files, dir, names)
  {
    hide PemToDer, IsCertFile, PinsOk;
    n := 0;
    var i := 0;
    while i < |names|
      invariant 0 <= i <= |names| && n == LoadCount(k, files, dir, names[..i])
      invariant pins.Valid(k) && pins.byUuid == Load(k, files, dir, names[..i], old(pins.byUuid))
    {
      var p := Path(dir, names[i]);
      assert names[..i + 1][..i] == names[..i];
      i := i + 1;
      if !IsCertFile(p.name) {
        continue;
      }
      if files[p].Some? {
        var der := ExtractDer(files[p].value);
        if der.Some? {
          var r := pins.PinCert(k, der.value);
          if r.Ok? {
            n := n + 1;
          }
        }
      }
    }
    assert names[..i] == names;
  }

  // ---- adding ----

  datatype Store = Store(files: Files, pins: Pins)

  /** The UUID that a PEM's certificate carries, if it has one. */
  function UuidOf(k: Primitives, pem: string): Option<string> {
    match PemToDer(pem) case Some(der) => k.nodeUuid(der) case None => None
  }

  /**
   * What becomes of one write: it succeeds, it is refused before the file is touched, or it breaks off and
   * leaves whatever is named here in the file.
   */
  datatype Writing = Wrote | Refused | Broke(left: Option<string>)

  function AfterWrite(files: Files, p: Path, pem: string, writing: Writing): Files {
    match writing
    case Wrote => files[p := Some(pem)]
    case Refused => files
    case Broke(left) => files[p := left]
  }

  /** `add_trusted_peer`: pin first, then write the PEM where the UUID leads; `None` when the certificate is refused. */
  function Add(k: Primitives, dir: seq<string>, s: Store, pem: string, writing: Writing): Option<Store> {
    match PemToDer(pem)
    case None => None
    case Some(der) =>
      (match k.nodeUuid(der)
       case None => None
       case Some(id) => Some(Store(AfterWrite(s.files, FileOf(dir, id), pem, writing), Pin(k, s.pins, der))))
  }

  class Directory {
    const trusted: seq<string>  // where the `trusted/` directory is
    var files: Files

    constructor (trusted: seq<string>, files: Files)
      ensures this.trusted == trusted && this.files == files
    {
      this.trusted, this.files := trusted, files;
    }

    /** `writing` is what becomes of creating the directory and writing the file. */
    method AddTrustedPeer(k: Primitives, pem: string, pins: PeerPinStore, writing: Writing) returns (r: Result<string>)
      requires pins.Valid(k)
      modifies this, pins
      ensures pins.Valid(k)
      ensures match Add(k, trusted, old(Store(files, pins.byUuid)), pem, writing)
              case None => r.Err? && files == old(files) && pins.byUuid == old(pins.byUuid)
              case Some(s) => Store(files, pins.byUuid) == s && (r.Ok? <==> writing == Wrote)
      ensures r.Ok? ==> UuidOf(k, pem) == Some(r.value)
    {
      hide PemToDer, Located;
      var der := ExtractDer(pem);
      if der.None? {
        return Err("no CERTIFICATE block in peer PEM");
      }
      var id := pins.PinCert(k, der.value);
      if id.Err? {
        return id;
      }
      files := AfterWrite(files, FileOf(trusted, id.value), pem, writing);
      r := if writing == Wrote then id else Err("cannot write");
    }
  }

  // ---- memory and disk, at one moment ----

  /** A reload, in whatever order the directory is listed, pins exactly what is pinned. */
  ghost predicate Agree(k: Primitives, dir: seq<string>, s: Store) {
    forall names :: IsListing(s.files, dir, names) ==> Load(k, s.files, dir, names, map[]) == s.pins
  }

  /** This file of the directory pins this certificate under this UUID. */
  predicate Gives(k: Primitives, dir: seq<string>, files: Files, name: string, id: string, der: Bytes) {
    && Path(dir, name) in files
    && Carried(files, Path(dir, name)) == Some(der) && k.nodeUuid(der) == Some(id)
  }

  ghost predicate Given(k: Primitives, dir: seq<string>, files: Files, id: string, der: Bytes) {
    exists name :: Gives(k, dir, files, name, id, der)
  }

  /** Each pin is given by some file, and each file that gives one gives a pin as it is. */
  ghost predicate DiskHolds(k: Primitives, dir: seq<string>, s: Store) {
    && (forall id :: id in s.pins ==> Given(k, dir, s.files, id, s.pins[id].certDer))
    && (forall name, id, der :: Gives(k, dir, s.files, name, id, der) ==> id in s.pins && s.pins[id].certDer == der)
  }

  /** What is loaded was given by one of the files. */
  lemma {:induction false} LoadedIsGiven(k: Primitives, dir: seq<string>, files: Files, names: seq<string>)
    requires AllThere(files, dir, names)
    ensures PinsOk(k, Load(k, files, dir, names, map[]))
    ensures var pins := Load(k, files, dir, names, map[]);
      forall id :: id in pins ==> Given(k, dir, files, id, pins[id].certDer)
  {
    hide Carried, Fingerprint;
    if |names| > 0 {
      var n := |names| - 1;
      LoadedIsGiven(k, dir, files, names[..n]);
      var pins := Load(k, files, dir, names, map[]);
      forall id | id in pins
        ensures Given(k, dir, files, id, pins[id].certDer)
      {
        assert Gives(k, dir, files, names[n], id, pins[id].certDer)
            || (id in Load(k, files, dir, names[..n], map[]) && pins[id] == Load(k, files, dir, names[..n], map[])[id]);
      }
    }
  }

  /** Each of the files that gives a pin has its UUID loaded. */
  lemma {:induction false} GivenIsLoaded(k: Primitives, dir: seq<string>, files: Files, names: seq<string>,
                                         name: string, id: string, der: Bytes)
    requires AllThere(files, dir, names) && name in names && Gives(k, dir, files, name, id, der)
    ensures id in Load(k, files, dir, names, map[])
    ensures names[|names| - 1] == name ==> Load(k, files, dir, names, map[])[id].certDer == der
  {
    hide Carried, Fingerprint;
    var n := |names| - 1;
    if names[n] != name {
      assert name in names[..n];
      GivenIsLoaded(k, dir, files, names[..n], name, id, der);
    }
  }

  lemma {:induction false} Enumerated(s: set<string>) returns (names: seq<string>)
    ensures forall x :: x in names <==> x in s
    ensures forall i, j :: 0 <= i < j < |names| ==> names[i] != names[j]
    decreases s
  {
    if s == {} {
      names := [];
    } else {
      var x :| x in s;
      var rest := Enumerated(s - {x});
      names := rest + [x];
      assert forall i :: 0 <= i < |rest| ==> rest[i] in rest;
    }
  }

  /** The directory can be listed with any one of its files, or with nothing in particular, last. */
  lemma ListingEnding(files: Files, dir: seq<string>, last: Option<string>) returns (names: seq<string>)
    requires last.Some? ==> Path(dir, last.value) in files
    ensures IsListing(files, dir, names)
    ensures last.Some? ==> |names| > 0 && names[|names| - 1] == last.value
  {
    var all := set p | p in files && p.dir == dir :: p.name;
    assert forall name :: name in all <==> Path(dir, name) in files by {
      forall name | Path(dir, name) in files
        ensures name in all
      {
        assert Path(dir, name).name == name;
      }
    }
    if last.Some? {
      var others := Enumerated(all - {last.value});
      names := others + [last.value];
      assert forall i :: 0 <= i < |others| ==> others[i] in others;
    } else {
      names := Enumerated(all);
    }
  }

  /** Memory and disk agree if and only if each pin has its file and no file gives anything else. */
  lemma AgreeExactly(k: Primitives, dir: seq<string>, s: Store)
    requires PinsOk(k, s.pins)
    ensures Agree(k, dir, s) <==> DiskHolds(k, dir, s)
  {
    if Agree(k, dir, s) {
      AgreeHolds(k, dir, s);
    }
    if DiskHolds(k, dir, s) {
      HoldsAgree(k, dir, s);
    }
  }

  lemma AgreeHolds(k: Primitives, dir: seq<string>, s: Store)
    requires PinsOk(k, s.pins) && Agree(k, dir, s)
    ensures DiskHolds(k, dir, s)
  {
    hide Gives, Load, PinsOk;
    var names := ListingEnding(s.files, dir, None);
    LoadedIsGiven(k, dir, s.files, names);
    forall name, id, der | Gives(k, dir, s.files, name, id, der)
      ensures id in s.pins && s.pins[id].certDer == der
    {
      GivesThere(k, dir, s.files, name, id, der);
      var order := ListingEnding(s.files, dir, Some(name));
      GivenIsLoaded(k, dir, s.files, order, name, id, der);
    }
  }

  lemma GivesThere(k: Primitives, dir: seq<string>, files: Files, name: string, id: string, der: Bytes)
    requires Gives(k, dir, files, name, id, der)
    ensures Path(dir, name) in files
  {
  }

  lemma HoldsAgree(k: Primitives, dir: seq<string>, s: Store)
    requires PinsOk(k, s.pins) && DiskHolds(k, dir, s)
    ensures Agree(k, dir, s)
  {
    hide Load;
    forall names | IsListing(s.files, dir, names)
      ensures Load(k, s.files, dir, names, map[]) == s.pins
    {
      hide Carried, Fingerprint;
      var pins := Load(k, s.files, dir, names, map[]);
      LoadedIsGiven(k, dir, s.files, names);
      forall id | id in s.pins
        ensures id in pins
      {
        var name :| Gives(k, dir, s.files, name, id, s.pins[id].certDer);
        assert Path(dir, name).name in names;
        GivenIsLoaded(k, dir, s.files, names, name, id, s.pins[id].certDer);
      }
      forall id | id in pins
        ensures id in s.pins && s.pins[id] == pins[id]
      {
        var name :| Gives(k, dir, s.files, name, id, pins[id].certDer);
      }
    }
  }

  /** A reload makes memory agree with disk exactly when all its files that give one UUID give one certificate. */
  lemma ReloadAgreesExactly(k: Primitives, dir: seq<string>, files: Files, names: seq<string>)
    requires IsListing(files, dir, names)
    ensures Agree(k, dir, Store(files, Load(k, files, dir, names, map[]))) <==>
              forall a, b, id, der, der' ::
                Gives(k, dir, files, a, id, der) && Gives(k, dir, files, b, id, der') ==> der == der'
  {
    hide Gives, Load, Agree;
    var pins := Load(k, files, dir, names, map[]);
    LoadedIsGiven(k, dir, files, names);
    AgreeExactly(k, dir, Store(files, pins));
    forall name, id, der | Gives(k, dir, files, name, id, der)
      ensures id in pins
    {
      GivesThere(k, dir, files, name, id, der);
      assert Path(dir, name).name in names;
      GivenIsLoaded(k, dir, files, names, name, id, der);
    }
  }

  // ---- a write that fails ----

  /** A refused write leaves an agreement if and only if the certificate was the pinned one already. */
  lemma RefusedWriteExactly(k: Primitives, dir: seq<string>, s: Store, pem: string, id: string)
    requires PinsOk(k, s.pins) && Agree(k, dir, s) && UuidOf(k, pem) == Some(id)
    ensures Agree(k, dir, Add(k, dir, s, pem, Refused).value) <==>
              id in s.pins && PemToDer(pem) == Some(s.pins[id].certDer)
  {
    hide PemToDer, FileOf, Gives, Agree, Fingerprint;
    var s' := Add(k, dir, s, pem, Refused).value;
    PinKeepsOk(k, s.pins, PemToDer(pem).value);
    AgreeExactly(k, dir, s);
    AgreeExactly(k, dir, s');
  }

  /** Some other file of the directory gives this certificate. */
  ghost predicate GivenElsewhere(k: Primitives, dir: seq<string>, files: Files, p: Path, id: string, der: Bytes) {
    exists name :: Path(dir, name) != p && Gives(k, dir, files, name, id, der)
  }

  /**
   * A write that breaks off and leaves no certificate leaves an agreement if and only if other files give
   * the one added and all the other pins.
   */
  lemma BrokenWriteExactly(k: Primitives, dir: seq<string>, s: Store, pem: string, id: string, left: Option<string>)
    requires PinsOk(k, s.pins) && Agree(k, dir, s) && UuidOf(k, pem) == Some(id)
    requires left.Some? ==> UuidOf(k, left.value).None?
    ensures Agree(k, dir, Add(k, dir, s, pem, Broke(left)).value) <==>
              && GivenElsewhere(k, dir, s.files, FileOf(dir, id), id, PemToDer(pem).value)
              && (forall other :: other in s.pins && other != id ==>
                    GivenElsewhere(k, dir, s.files, FileOf(dir, id), other, s.pins[other].certDer))
  {
    hide FileOf, Agree, Fingerprint, PemToDer, PinsOk;
    var p, der, s' := FileOf(dir, id), PemToDer(pem).value, Add(k, dir, s, pem, Broke(left)).value;
    PinKeepsOk(k, s.pins, der);
    AgreeExactly(k, dir, s);
    AgreeExactly(k, dir, s');
    assert Agree(k, dir, s) && BrokenAt(k, dir, s, s', p, left, id, der);
    hide DiskHolds, BrokenAt, GivenElsewhere;
    if Agree(k, dir, s') {
      BrokenNeeds(k, dir, s, s', p, left, id, der);
    }
    if forall i :: i in s'.pins ==> GivenElsewhere(k, dir, s.files, p, i, s'.pins[i].certDer) {
      BrokenSuffices(k, dir, s, s', p, left, id, der);
    }
  }

  /** What the added certificate and the broken file make of an agreeing store. */
  ghost predicate BrokenAt(k: Primitives, dir: seq<string>, s: Store, s': Store, p: Path, left: Option<string>,
                           id: string, der: Bytes) {
    && DiskHolds(k, dir, s) && (left.Some? ==> UuidOf(k, left.value).None?)
    && s'.files == s.files[p := left] && s'.pins.Keys == s.pins.Keys + {id} && s'.pins[id].certDer == der
    && (forall other :: other in s.pins && other != id ==> s'.pins[other] == s.pins[other])
  }

  lemma BrokenNeeds(k: Primitives, dir: seq<string>, s: Store, s': Store, p: Path, left: Option<string>, id: string,
                    der: Bytes)
    requires BrokenAt(k, dir, s, s', p, left, id, der) && DiskHolds(k, dir, s')
    ensures forall i :: i in s'.pins ==> GivenElsewhere(k, dir, s.files, p, i, s'.pins[i].certDer)
  {
    BrokenGives(k, dir, s.files, p, left);
    hide Gives, UuidOf, Given, GivenElsewhere;
    assert forall i :: i in s'.pins ==> Given(k, dir, s'.files, i, s'.pins[i].certDer);
  }

  lemma BrokenSuffices(k: Primitives, dir: seq<string>, s: Store, s': Store, p: Path, left: Option<string>, id: string,
                       der: Bytes)
    requires BrokenAt(k, dir, s, s', p, left, id, der)
    requires forall i :: i in s'.pins ==> GivenElsewhere(k, dir, s.files, p, i, s'.pins[i].certDer)
    ensures DiskHolds(k, dir, s')
  {
    BrokenGives(k, dir, s.files, p, left);
    ElsewhereIsPinned(k, dir, s, p, id, der);
    hide Gives, UuidOf, Given, GivenElsewhere;
    forall name, i, d | Gives(k, dir, s'.files, name, i, d)
      ensures i in s'.pins && s'.pins[i].certDer == d
    {
      assert Gives(k, dir, s.files, name, i, d);
      assert i in s.pins && s.pins[i].certDer == d;
    }
  }

  lemma ElsewhereIsPinned(k: Primitives, dir: seq<string>, s: Store, p: Path, id: string, der: Bytes)
    requires DiskHolds(k, dir, s) && GivenElsewhere(k, dir, s.files, p, id, der)
    ensures id in s.pins && s.pins[id].certDer == der
  {
    hide Gives;
  }

  /** The other files give what they gave. */
  lemma BrokenGives(k: Primitives, dir: seq<string>, files: Files, p: Path, left: Option<string>)
    requires left.Some? ==> UuidOf(k, left.value).None?
    ensures forall name, id, der ::
      Gives(k, dir, files[p := left], name, id, der) <==> Path(dir, name) != p && Gives(k, dir, files, name, id, der)
    ensures forall id, der :: Given(k, dir, files[p := left], id, der) <==> GivenElsewhere(k, dir, files, p, id, der)
  {
    hide PemToDer, IsCertFile;
    forall name, id, der
      ensures Gives(k, dir, files[p := left], name, id, der) <==>
                Path(dir, name) != p && Gives(k, dir, files, name, id, der)
    {
      if Path(dir, name) == p {
        assert files[p := left][p] == left;
      }
    }
  }

  // ---- memory and disk, over runs ----

  datatype Op = AddPem(pem: string, writing: Writing) | Restart(names: seq<string>)

  /** One addition, which a refused certificate makes no step; or a restart, if `names` lists the directory. */
  function Step(k: Primitives, dir: seq<string>, s: Store, op: Op): Store {
    match op
    case AddPem(pem, writing) => (match Add(k, dir, s, pem, writing) case Some(s') => s' case None => s)
    case Restart(names) =>
      if IsListing(s.files, dir, names) then Store(s.files, Load(k, s.files, dir, names, map[])) else s
  }

  function Run(k: Primitives, dir: seq<string>, start: Files, ops: seq<Op>): Store {
    if |ops| == 0 then Store(start, map[])
    else Step(k, dir, Run(k, dir, start, ops[..|ops| - 1]), ops[|ops| - 1])
  }

  lemma {:induction false} RunPinsOk(k: Primitives, dir: seq<string>, start: Files, ops: seq<Op>)
    ensures PinsOk(k, Run(k, dir, start, ops).pins)
  {
    hide PemToDer, FileOf, AfterWrite, Fingerprint, Load;
    if |ops| > 0 {
      var last := |ops| - 1;
      RunPinsOk(k, dir, start, ops[..last]);
      var s := Run(k, dir, start, ops[..last]);
      if ops[last].Restart? && IsListing(s.files, dir, ops[last].names) {
        LoadedIsGiven(k, dir, s.files, ops[last].names);
      }
    }
  }

  /**
   * Whatever its writes did and whenever the node restarted, memory and disk agree exactly when the disk holds the
   * pins.
   */
  lemma RunAgreesExactly(k: Primitives, dir: seq<string>, start: Files, ops: seq<Op>)
    ensures Agree(k, dir, Run(k, dir, start, ops)) <==> DiskHolds(k, dir, Run(k, dir, start, ops))
  {
    hide Run, Agree, DiskHolds, PinsOk;
    RunPinsOk(k, dir, start, ops);
    AgreeExactly(k, dir, Run(k, dir, start, ops));
  }

  // ---- runs whose writes succeed ----

  ghost predicate AllWrote(ops: seq<Op>) {
    forall i :: 0 <= i < |ops| && ops[i].AddPem? ==> ops[i].writing == Wrote
  }

  ghost predicate NoRestart(ops: seq<Op>) {
    forall i :: 0 <= i < |ops| ==> ops[i].AddPem?
  }

  /** Whatever else there is, the directory itself is empty. */
  predicate EmptyAt(files: Files, dir: seq<string>) {
    forall p :: p in files ==> p.dir != dir
  }

  /** One of the PEMs carries this UUID. */
  ghost predicate Added(k: Primitives, ops: seq<Op>, id: string) {
    exists i :: 0 <= i < |ops| && ops[i].AddPem? && UuidOf(k, ops[i].pem) == Some(id)
  }

  /** The file of this UUID holds the certificate pinned under it. */
  predicate Held(dir: seq<string>, s: Store, id: string)
    requires id in s.pins
  {
    var p := FileOf(dir, id);
    p in s.files && s.files[p].Some? && PemToDer(s.files[p].value) == Some(s.pins[id].certDer)
  }

  ghost predicate HasOwner(dir: seq<string>, s: Store, p: Path) {
    exists id :: id in s.pins && p == FileOf(dir, id) && Held(dir, s, id)
  }

  /** Each pin's file is there, and each certificate file of the directory holds one whose UUID leads to it. */
  ghost predicate Mirrors(k: Primitives, dir: seq<string>, s: Store) {
    && PinsOk(k, s.pins)
    && (forall id :: id in s.pins ==> HasOwner(dir, s, FileOf(dir, id)))
    && (forall p :: p in s.files && p.dir == dir && IsCertFile(p.name) ==> HasOwner(dir, s, p))
  }

  lemma PinKeepsOk(k: Primitives, pins: Pins, der: Bytes)
    requires PinsOk(k, pins)
    ensures PinsOk(k, Pin(k, pins, der))
  {
  }

  /** What an addition that is written does to the pins and the files. */
  lemma AddShape(k: Primitives, dir: seq<string>, s: Store, pem: string, s': Store) returns (id: string)
    requires PinsOk(k, s.pins) && Add(k, dir, s, pem, Wrote) == Some(s')
    ensures UuidOf(k, pem) == Some(id)
    ensures s'.files == s.files[FileOf(dir, id) := Some(pem)]
    ensures s'.pins.Keys == s.pins.Keys + {id} && PemToDer(pem) == Some(s'.pins[id].certDer)
    ensures forall other :: other in s.pins && other != id ==> s'.pins[other] == s.pins[other]
    ensures PinsOk(k, s'.pins)
  {
    hide PemToDer, FileOf, Fingerprint;
    id := k.nodeUuid(PemToDer(pem).value).value;
    PinKeepsOk(k, s.pins, PemToDer(pem).value);
  }

  /** The file just written is its UUID's; every other keeps its owner. */
  lemma OwnerKept(dir: seq<string>, s: Store, s': Store, id: string, pem: string, p: Path)
    requires s'.files == s.files[FileOf(dir, id) := Some(pem)]
    requires s'.pins.Keys == s.pins.Keys + {id} && PemToDer(pem) == Some(s'.pins[id].certDer)
    requires forall other :: other in s.pins && other != id ==> s'.pins[other] == s.pins[other]
    requires p == FileOf(dir, id) || HasOwner(dir, s, p)
    ensures HasOwner(dir, s', p)
  {
    hide PemToDer, FileOf;
    if p == FileOf(dir, id) {
      assert id in s'.pins && Held(dir, s', id);
    } else {
      var other :| other in s.pins && p == FileOf(dir, other) && Held(dir, s, other);
      assert other in s'.pins && Held(dir, s', other);
    }
  }

  lemma AddMirrors(k: Primitives, dir: seq<string>, s: Store, pem: string, s': Store)
    requires Mirrors(k, dir, s) && Add(k, dir, s, pem, Wrote) == Some(s')
    ensures Mirrors(k, dir, s')
  {
    hide PemToDer, FileOf, HasOwner, PinsOk, Add, IsCertFile;
    var id := AddShape(k, dir, s, pem, s');
    forall other | other in s'.pins
      ensures HasOwner(dir, s', FileOf(dir, other))
    {
      OwnerKept(dir, s, s', id, pem, FileOf(dir, other));
    }
    forall p | p in s'.files && p.dir == dir && IsCertFile(p.name)
      ensures HasOwner(dir, s', p)
    {
      OwnerKept(dir, s, s', id, pem, p);
    }
  }

  /** A restart keeps the surviving pins, and each certificate file has one. */
  lemma RestartMirrors(k: Primitives, dir: seq<string>, s: Store, names: seq<string>)
    requires Mirrors(k, dir, s) && IsListing(s.files, dir, names)
    ensures Mirrors(k, dir, Step(k, dir, s, Restart(names)))
  {
    hide PemToDer, FileOf, IsCertFile, Fingerprint, Load;
    var s' := Store(s.files, Survivors(dir, s));
    RebuildsSurvivors(k, dir, s, names);
    forall id | id in s.pins && Survives(dir, s, id)
      ensures HasOwner(dir, s', FileOf(dir, id))
    {
      assert id in s'.pins && Held(dir, s', id);
    }
    forall p | p in s.files && p.dir == dir && IsCertFile(p.name)
      ensures HasOwner(dir, s', p)
    {
      var id :| id in s.pins && p == FileOf(dir, id) && Held(dir, s, id);
      assert Survives(dir, s, id);
    }
  }

  lemma {:induction false} RunMirrors(k: Primitives, dir: seq<string>, start: Files, ops: seq<Op>)
    requires EmptyAt(start, dir) && AllWrote(ops)
    ensures Mirrors(k, dir, Run(k, dir, start, ops))
  {
    hide Mirrors, Add, Load, HasOwner;
    if |ops| == 0 {
      FreshMirrors(k, dir, start);
    } else {
      var last := ops[|ops| - 1];
      RunMirrors(k, dir, start, ops[..|ops| - 1]);
      var before := Run(k, dir, start, ops[..|ops| - 1]);
      if last.AddPem? && Add(k, dir, before, last.pem, Wrote).Some? {
        AddMirrors(k, dir, before, last.pem, Run(k, dir, start, ops));
      }
      if last.Restart? && IsListing(before.files, dir, last.names) {
        RestartMirrors(k, dir, before, last.names);
      }
    }
  }

  lemma FreshMirrors(k: Primitives, dir: seq<string>, start: Files)
    requires EmptyAt(start, dir)
    ensures Mirrors(k, dir, Store(start, map[]))
  {
  }

  /** Only what the added certificates carry is pinned, and all of it as long as the node runs. */
  lemma {:induction false} RunPins(k: Primitives, dir: seq<string>, start: Files, ops: seq<Op>, id: string)
    requires EmptyAt(start, dir) && AllWrote(ops)
    ensures id in Run(k, dir, start, ops).pins ==> Added(k, ops, id)
    ensures NoRestart(ops) && Added(k, ops, id) ==> id in Run(k, dir, start, ops).pins
  {
    hide PemToDer, Located, FileOf, Load, Mirrors, Fingerprint, Survives;
    if |ops| > 0 {
      var n := |ops| - 1;
      var before := Run(k, dir, start, ops[..n]);
      RunPins(k, dir, start, ops[..n], id);
      if ops[n].Restart? && IsListing(before.files, dir, ops[n].names) {
        RunMirrors(k, dir, start, ops[..n]);
        RebuildsSurvivors(k, dir, before, ops[n].names);
      }
      AddedExtends(k, ops, id);
    }
  }

  lemma AddedExtends(k: Primitives, ops: seq<Op>, id: string)
    requires |ops| > 0
    ensures var n := |ops| - 1;
      Added(k, ops, id) <==> Added(k, ops[..n], id) || (ops[n].AddPem? && UuidOf(k, ops[n].pem) == Some(id))
  {
    hide UuidOf;
    var n := |ops| - 1;
    if i :| 0 <= i < n && ops[..n][i].AddPem? && UuidOf(k, ops[..n][i].pem) == Some(id) {
      assert ops[i].AddPem? && UuidOf(k, ops[i].pem) == Some(id);
    }
    if i :| 0 <= i < |ops| && ops[i].AddPem? && UuidOf(k, ops[i].pem) == Some(id) {
      assert i < n ==> ops[..n][i].AddPem? && UuidOf(k, ops[..n][i].pem) == Some(id);
    }
  }

  /** The pin survives a reload: its file is a certificate file of the directory, and holds it. */
  predicate Survives(dir: seq<string>, s: Store, id: string)
    requires id in s.pins
  {
    FileOf(dir, id).dir == dir && IsCertFile(FileOf(dir, id).name) && Held(dir, s, id)
  }

  function Survivors(dir: seq<string>, s: Store): Pins {
    map id | id in s.pins && Survives(dir, s, id) :: s.pins[id]
  }

  /** A file has one owner. */
  lemma OneOwner(k: Primitives, dir: seq<string>, s: Store, a: string, b: string)
    requires PinsOk(k, s.pins) && a in s.pins && b in s.pins && Held(dir, s, a) && Held(dir, s, b)
    requires FileOf(dir, a) == FileOf(dir, b)
    ensures a == b
  {
    hide PemToDer, FileOf;
    assert k.nodeUuid(s.pins[a].certDer) == Some(a) && k.nodeUuid(s.pins[b].certDer) == Some(b);
  }

  /** In a mirrored directory the files give exactly the surviving pins. */
  lemma MirrorGives(k: Primitives, dir: seq<string>, s: Store)
    requires Mirrors(k, dir, s)
    ensures DiskHolds(k, dir, Store(s.files, Survivors(dir, s)))
  {
    hide PemToDer, FileOf, IsCertFile, Fingerprint;
    forall id | id in s.pins && Survives(dir, s, id)
      ensures Given(k, dir, s.files, id, s.pins[id].certDer)
    {
      var p := FileOf(dir, id);
      assert p == Path(dir, p.name);
      assert Gives(k, dir, s.files, p.name, id, s.pins[id].certDer);
    }
    forall name, id, der | Gives(k, dir, s.files, name, id, der)
      ensures id in Survivors(dir, s) && s.pins[id].certDer == der
    {
      assert HasOwner(dir, s, Path(dir, name));
      var owner :| owner in s.pins && Path(dir, name) == FileOf(dir, owner) && Held(dir, s, owner);
      assert k.nodeUuid(s.pins[owner].certDer) == Some(owner);
    }
  }

  lemma RebuildsSurvivors(k: Primitives, dir: seq<string>, s: Store, names: seq<string>)
    requires Mirrors(k, dir, s) && IsListing(s.files, dir, names)
    ensures Load(k, s.files, dir, names, map[]) == Survivors(dir, s)
    ensures PinsOk(k, Survivors(dir, s))
  {
    MirrorGives(k, dir, s);
    hide Load, DiskHolds, Survives, HasOwner, Fingerprint;
    HoldsAgree(k, dir, Store(s.files, Survivors(dir, s)));
  }

  /**
   * After any run of written additions and restarts, reloading the directory in any listing order rebuilds
   * exactly the pins whose own file is a certificate file of the directory and still holds them.
   */
  lemma ReloadRebuilds(k: Primitives, dir: seq<string>, start: Files, ops: seq<Op>, names: seq<string>)
    requires EmptyAt(start, dir) && AllWrote(ops) && IsListing(Run(k, dir, start, ops).files, dir, names)
    ensures var s := Run(k, dir, start, ops);
      Load(k, s.files, dir, names, map[]) == map id | id in s.pins && Survives(dir, s, id) :: s.pins[id]
  {
    RunMirrors(k, dir, start, ops);
    hide Run, Load, Mirrors, Survives;
    RebuildsSurvivors(k, dir, Run(k, dir, start, ops), names);
  }

  /** Each of these UUIDs names a certificate file of the directory, and no two name one file. */
  ghost predicate FilesApart(dir: seq<string>, ids: iset<string>) {
    && (forall id :: id in ids ==> FileOf(dir, id).dir == dir && IsCertFile(FileOf(dir, id).name))
    && (forall a, b :: a in ids && b in ids && FileOf(dir, a) == FileOf(dir, b) ==> a == b)
  }

  /** After such a run, memory and disk agree if and only if the pinned UUIDs name certificate files, each its own. */
  lemma MemoryAndDiskAgree(k: Primitives, dir: seq<string>, start: Files, ops: seq<Op>)
    requires EmptyAt(start, dir) && AllWrote(ops)
    ensures var s := Run(k, dir, start, ops);
      Agree(k, dir, s) <==> FilesApart(dir, iset id | id in s.pins)
  {
    var s := Run(k, dir, start, ops);
    RunMirrors(k, dir, start, ops);
    AllSurvive(k, dir, s);
    EqualWhenAllSurvive(dir, s);
    hide Run, FileOf, IsCertFile, Load, Survives, Mirrors, Survivors;
    var names := ListingEnding(s.files, dir, None);
    forall order | IsListing(s.files, dir, order)
      ensures Load(k, s.files, dir, order, map[]) == Survivors(dir, s)
    {
      RebuildsSurvivors(k, dir, s, order);
    }
    assert IsListing(s.files, dir, names);
  }

  /** Without a restart in between, that is a condition on the added UUIDs alone. */
  lemma AddedAgreeExactly(k: Primitives, dir: seq<string>, start: Files, ops: seq<Op>)
    requires EmptyAt(start, dir) && AllWrote(ops) && NoRestart(ops)
    ensures Agree(k, dir, Run(k, dir, start, ops)) <==> FilesApart(dir, iset id | Added(k, ops, id))
  {
    MemoryAndDiskAgree(k, dir, start, ops);
    hide Run, Agree, Added, NoRestart, FilesApart;
    forall id
      ensures id in Run(k, dir, start, ops).pins <==> Added(k, ops, id)
    {
      RunPins(k, dir, start, ops, id);
    }
    assert (iset id | id in Run(k, dir, start, ops).pins) == iset id | Added(k, ops, id);
  }

  lemma EqualWhenAllSurvive(dir: seq<string>, s: Store)
    ensures Survivors(dir, s) == s.pins <==> forall id :: id in s.pins ==> Survives(dir, s, id)
  {
    hide Survives;
    assert forall id :: id in s.pins && !Survives(dir, s, id) ==> id !in Survivors(dir, s);
  }

  /** All pins survive if and only if their files are apart. */
  lemma AllSurvive(k: Primitives, dir: seq<string>, s: Store)
    requires Mirrors(k, dir, s)
    ensures (forall id :: id in s.pins ==> Survives(dir, s, id)) <==> FilesApart(dir, iset id | id in s.pins)
  {
    hide PemToDer, FileOf, IsCertFile, Fingerprint, PinsOk;
    if forall id :: id in s.pins ==> Survives(dir, s, id) {
      forall a, b | a in s.pins && b in s.pins && FileOf(dir, a) == FileOf(dir, b)
        ensures a == b
      {
        OneOwner(k, dir, s, a, b);
      }
    } else {
      var id :| id in s.pins && !Survives(dir, s, id);
      assert HasOwner(dir, s, FileOf(dir, id));
      var other :| other in s.pins && FileOf(dir, id) == FileOf(dir, other) && Held(dir, s, other);
    }
  }

  /** In particular they agree, restarts or not, when every added UUID is nonempty and has no `/`. */
  lemma PlainUuidsAgree(k: Primitives, dir: seq<string>, start: Files, ops: seq<Op>)
    requires EmptyAt(start, dir) && AllWrote(ops)
    requires forall id :: Added(k, ops, id) ==> id != "" && '/' !in id
    ensures Agree(k, dir, Run(k, dir, start, ops))
    ensures forall id :: id in Run(k, dir, start, ops).pins <==> Added(k, ops, id)
  {
    PlainPinsAll(k, dir, start, ops);
    hide *;
    PlainUuidsReload(k, dir, start, ops);
  }

  lemma PlainApart(dir: seq<string>, ids: iset<string>)
    requires forall id :: id in ids ==> id != "" && '/' !in id
    ensures FilesApart(dir, ids)
  {
    hide IsCertFile, FileOf;
    forall id | id in ids
      ensures FileOf(dir, id) == Path(dir, id + ".crt") && IsCertFile(id + ".crt")
    {
      PlainStays(dir, id);
      CrtExtension(id);
    }
    forall a, b | a in ids && b in ids && FileOf(dir, a) == FileOf(dir, b)
      ensures a == b
    {
      assert (a + ".crt")[..|a|] == a && (b + ".crt")[..|b|] == b;
    }
  }

  /** Then a restart loses no pin. */
  lemma {:induction false} PlainPinsAll(k: Primitives, dir: seq<string>, start: Files, ops: seq<Op>)
    requires EmptyAt(start, dir) && AllWrote(ops)
    requires forall id :: Added(k, ops, id) ==> id != "" && '/' !in id
    ensures forall id :: id in Run(k, dir, start, ops).pins <==> Added(k, ops, id)
  {
    hide PemToDer, FileOf, Load, Fingerprint, Agree, FilesApart, Added;
    if |ops| == 0 {
      NoneAdded(k, ops);
    } else {
      var n := |ops| - 1;
      var before := Run(k, dir, start, ops[..n]);
      forall id
        ensures Added(k, ops, id) <==> Added(k, ops[..n], id) || (ops[n].AddPem? && UuidOf(k, ops[n].pem) == Some(id))
      {
        AddedExtends(k, ops, id);
      }
      PlainPinsAll(k, dir, start, ops[..n]);
      PlainUuidsReload(k, dir, start, ops[..n]);
      AgreeMeans(k, dir, before);
    }
  }

  lemma NoneAdded(k: Primitives, ops: seq<Op>)
    requires |ops| == 0
    ensures forall id :: !Added(k, ops, id)
  {
  }

  lemma AgreeMeans(k: Primitives, dir: seq<string>, s: Store)
    requires Agree(k, dir, s)
    ensures forall names :: IsListing(s.files, dir, names) ==> Load(k, s.files, dir, names, map[]) == s.pins
  {
  }

  lemma PlainUuidsReload(k: Primitives, dir: seq<string>, start: Files, ops: seq<Op>)
    requires EmptyAt(start, dir) && AllWrote(ops)
    requires forall id :: Added(k, ops, id) ==> id != "" && '/' !in id
    requires forall id :: id in Run(k, dir, start, ops).pins <==> Added(k, ops, id)
    ensures Agree(k, dir, Run(k, dir, start, ops))
  {
    PlainApart(dir, iset id | Added(k, ops, id));
    MemoryAndDiskAgree(k, dir, start, ops);
    hide *;
    assert (iset id | id in Run(k, dir, start, ops).pins) == iset id | Added(k, ops, id);
  }

  // ---- in full ----

  /** A name has the extension after its last dot, if anything is before that dot. */
  lemma {:induction false} LastDotInFull(stem: string, extension: string)
    requires '.' !in extension
    ensures LastDot(stem + "." + extension) == Some(|stem|)
    decreases |extension|
  {
    var name := stem + "." + extension;
    if extension == "" {
      assert name[|name| - 1] == '.';
    } else {
      var shorter := extension[..|extension| - 1];
      assert name[|name| - 1] == extension[|extension| - 1] && extension[|extension| - 1] in extension;
      assert forall c :: c in shorter ==> c in extension;
      assert name[..|name| - 1] == stem + "." + shorter;
      LastDotInFull(stem, shorter);
    }
  }

  /** Only names that end in `.crt` or `.pem`, with something before that, are certificate files. */
  lemma CertFilesInFull(stem: string, extension: string)
    requires '.' !in extension
    ensures IsCertFile(stem + "." + extension) <==> stem != "" && extension in {"crt", "pem"}
    ensures !IsCertFile(extension)
  {
    LastDotInFull(stem, extension);
    var name := stem + "." + extension;
    assert name[|stem| + 1..] == extension;
    NoDot(extension);
    hide LastDot;
    assert "crt"[0] != "pem"[0];
  }

  lemma {:induction false} NoDot(name: string)
    requires '.' !in name
    ensures LastDot(name) == None
  {
    if |name| > 0 {
      assert name[|name| - 1] in name;
      assert forall c :: c in name[..|name| - 1] ==> c in name;
      NoDot(name[..|name| - 1]);
    }
  }

  ghost predicate GivesOne(k: Primitives, dir: seq<string>, files: Files, name: string) {
    exists id, der :: Gives(k, dir, files, name, id, der)
  }

  /** The listed files that give a pin. */
  ghost function Giving(k: Primitives, files: Files, dir: seq<string>, names: seq<string>): set<string> {
    set name | name in names && GivesOne(k, dir, files, name)
  }

  /** The count of a load is the number of files that give a pin. */
  lemma {:induction false} CountInFull(k: Primitives, files: Files, dir: seq<string>, names: seq<string>)
    requires AllThere(files, dir, names) && forall i, j :: 0 <= i < j < |names| ==> names[i] != names[j]
    ensures LoadCount(k, files, dir, names) == |Giving(k, files, dir, names)|
  {
    if |names| == 0 {
      assert Giving(k, files, dir, names) == {};
    } else {
      var n := |names| - 1;
      CountInFull(k, files, dir, names[..n]);
      GivingGrows(k, files, dir, names);
      hide Giving, GivesOne, Loads;
    }
  }

  lemma GivingGrows(k: Primitives, files: Files, dir: seq<string>, names: seq<string>)
    requires AllThere(files, dir, names) && |names| > 0
    requires forall i, j :: 0 <= i < j < |names| ==> names[i] != names[j]
    ensures var n := |names| - 1;
      |Giving(k, files, dir, names)| ==
        |Giving(k, files, dir, names[..n])| + if Loads(k, files, Path(dir, names[n])) then 1 else 0
  {
    var n := |names| - 1;
    LoadsGives(k, dir, files, names[n]);
    hide GivesOne, Loads;
    var before, after := Giving(k, files, dir, names[..n]), Giving(k, files, dir, names);
    assert names[n] !in names[..n];
    assert forall name :: name in names <==> name in names[..n] || name == names[n];
    if Loads(k, files, Path(dir, names[n])) {
      assert after == before + {names[n]};
    } else {
      assert after == before;
    }
  }

  lemma LoadsGives(k: Primitives, dir: seq<string>, files: Files, name: string)
    requires Path(dir, name) in files
    ensures Loads(k, files, Path(dir, name)) <==> GivesOne(k, dir, files, name)
  {
    hide PemToDer, IsCertFile;
    if Loads(k, files, Path(dir, name)) {
      var der := Carried(files, Path(dir, name)).value;
      assert Gives(k, dir, files, name, k.nodeUuid(der).value, der);
    }
  }

  /** A file gives a pin if its name ends in `.crt` or `.pem` and its text holds a certificate with a UUID. */
  lemma GivesInFull(k: Primitives, dir: seq<string>, files: Files, stem: string, extension: string, id: string,
                    der: Bytes)
    requires '.' !in extension
    ensures var p := Path(dir, stem + "." + extension);
      Gives(k, dir, files, p.name, id, der) <==>
        && stem != "" && extension in {"crt", "pem"} && p in files && files[p].Some?
        && PemToDer(files[p].value) == Some(der) && k.nodeUuid(der) == Some(id)
  {
    CertFilesInFull(stem, extension);
    assert |stem + "." + extension| == |stem| + 1 + |extension|;
    hide PemToDer, IsCertFile;
  }
}
