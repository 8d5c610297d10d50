/** Directory transfer over an abstract file tree: the tar writer and reader, the
    content-hash snapshot, and the delta mirrored back by --sync. */
module TreeSync {
  import opened Prelude
  import opened Paths

  type Content = seq<char>

  /** The regular files and the directories below a root, by relative path. */
  datatype Tree = Tree(files: map<Path, Content>, dirs: set<Path>)

  const EMPTY := Tree(map[], {})

  datatype Entry = DirEntry(name: string) | FileEntry(name: string, content: Content)

  /** p goes strictly, or not, through q. */
  predicate Above(q: Path, p: Path) {
    q != [] && q < p
  }

  ghost predicate TreeOk(t: Tree) {
    && (forall p :: p in t.files ==> p != [] && ProperPath(p) && p !in t.dirs)
    && (forall p :: p in t.dirs ==> p != [] && ProperPath(p))
    && (forall p, q :: (p in t.files || p in t.dirs) && Above(q, p) ==> q in t.dirs)
  }

  // ---- Unpacking ----

  /** The non-empty prefixes of p, p included. */
  function Prefixes(p: Path): set<Path> {
    set k | 1 <= k <= |p| :: p[..k]
  }

  /** os.MkdirAll below the root: None when a file is in the way. */
  function MkdirAll(t: Tree, p: Path): Option<Tree> {
    if Prefixes(p) * t.files.Keys != {} then None else Some(t.(dirs := t.dirs + Prefixes(p)))
  }

  /** The directory of a destination; of the root itself, outside the tree. */
  function Parent(p: Path): Path {
    if p == [] then [] else p[..|p| - 1]
  }

  /** One entry unpacked at its cleaned path. */
  function Unpack(t: Tree, e: Entry): Option<Tree> {
    var p := Parts(e.name);
    match e
    case DirEntry(_) => MkdirAll(t, p)
    case FileEntry(_, content) => PutFile(t, p, content)
  }

  /** Open for writing refuses a directory, the root among them. */
  function PutFile(t: Tree, p: Path, content: Content): Option<Tree> {
    var u := MkdirAll(t, Parent(p));
    if u.None? || p == [] || p in u.value.dirs then None
    else Some(u.value.(files := u.value.files[p := content]))
  }

  /** All entries in order; None when one of them fails. */
  function UnpackAll(t: Tree, es: seq<Entry>): Option<Tree> {
    if es == [] then Some(t)
    else
      var u := UnpackAll(t, es[..|es| - 1]);
      if u.None? then None else Unpack(u.value, es[|es| - 1])
  }

  /** A directory on disk; root is its cleaned absolute path. */
  class Disk {
    const root: Path
    var tree: Tree

    constructor (root: Path, tree: Tree)
      ensures this.root == root && this.tree == tree
    {
      this.root, this.tree := root, tree;
    }

    /** ReadTar: every entry goes through safeJoin; the first failure stops it and
        leaves the tree as the entries before made it. (A file in the way of a
        directory, or a directory in the way of a file, has its own parents, so
        the failing entry makes nothing.) */
    method ReadTar(es: seq<Entry>) returns (ok: bool)
      requires ProperPath(root) && root != [] && TreeOk(tree)
      modifies this
      ensures TreeOk(tree)
      ensures ok == UnpackAll(old(tree), es).Some?
      ensures ok ==> tree == UnpackAll(old(tree), es).value
      ensures !ok ==> exists k :: StopsAt(old(tree), es, k, tree)
    {
      assert es[..0] == [];
      for k := 0 to |es|
        invariant TreeOk(tree) && UnpackAll(old(tree), es[..k]) == Some(tree)
      {
        assert es[..k + 1][..k] == es[..k];
        ghost var before := tree;
        UnpackKeepsOk(tree, es[k]);
        var dest := SafeJoin(Rooted(root), es[k].name);
        SafeJoinContains(root, es[k].name);
        if dest.None? {
          assert false;
        }
        var placed := PlaceEntry(es[k], Parts(dest.value)[|root|..]);
        if !placed {
          UnpackFails(old(tree), es, k + 1);
          assert StopsAt(old(tree), es, k, tree);
          return false;
        }
      }
      assert es[..|es|] == es;
      return true;
    }

    /** One entry at its destination below the root. */
    method PlaceEntry(e: Entry, p: Path) returns (ok: bool)
      requires TreeOk(tree) && p == Parts(e.name)
      modifies this
      ensures ok == Unpack(old(tree), e).Some?
      ensures tree == if ok then Unpack(old(tree), e).value else old(tree)
    {
      match e {
        case DirEntry(_) =>
          var made := MkdirAll(tree, p);
          if made.None? {
            return false;
          }
          tree := made.value;
        case FileEntry(_, content) =>
          var made := MkdirAll(tree, Parent(p));
          if made.None? {
            return false;
          }
          tree := made.value;
          if p == [] || p in tree.dirs {
            ParentsAreThere(old(tree), p);
            return false;
          }
          tree := tree.(files := tree.files[p := content]);
      }
      return true;
    }
  }

  /** Unpacking es fails at entry k, with the tree as it is then. */
  ghost predicate StopsAt(t: Tree, es: seq<Entry>, k: nat, now: Tree) {
    k < |es| && UnpackAll(t, es[..k]) == Some(now) && UnpackAll(t, es[..k + 1]).None?
  }

  /** The directories above a directory exist already. */
  lemma ParentsAreThere(t: Tree, p: Path)
    requires TreeOk(t) && MkdirAll(t, Parent(p)).Some?
    requires p == [] || p in MkdirAll(t, Parent(p)).value.dirs
    ensures MkdirAll(t, Parent(p)) == Some(t)
  {
    forall d | d in Prefixes(Parent(p)) ensures d in t.dirs {
      PrefixesAre(Parent(p), d);
      ParentIsShorter(p, d);
    }
    assert t.dirs + Prefixes(Parent(p)) == t.dirs;
  }

  lemma ParentIsShorter(p: Path, d: Path)
    requires d in Prefixes(Parent(p))
    ensures Above(d, p) && p !in Prefixes(Parent(p))
  {
    PrefixesAre(Parent(p), d);
    PrefixesAre(Parent(p), p);
    assert d == Parent(p)[..|d|] == p[..|d|];
  }

  lemma MkdirKeepsOk(t: Tree, p: Path)
    requires TreeOk(t) && ProperPath(p) && MkdirAll(t, p).Some?
    ensures TreeOk(MkdirAll(t, p).value)
  {
    var u := MkdirAll(t, p).value;
    forall d | d in Prefixes(p) ensures d != [] && ProperPath(d) && d !in t.files {
      PrefixesAre(p, d);
      assert d in t.files ==> d in Prefixes(p) * t.files.Keys;
    }
    forall x, q | (x in u.files || x in u.dirs) && Above(q, x) ensures q in u.dirs {
      if x in Prefixes(p) {
        PrefixesAre(p, x);
        PrefixesAre(p, q);
      }
    }
  }

  lemma PutKeepsOk(t: Tree, p: Path, content: Content)
    requires TreeOk(t) && ProperPath(p) && PutFile(t, p, content).Some?
    ensures TreeOk(PutFile(t, p, content).value)
  {
    var u := MkdirAll(t, Parent(p)).value;
    MkdirKeepsOk(t, Parent(p));
    forall q | Above(q, p) ensures q in u.dirs {
      PrefixesAre(Parent(p), q);
      assert q == Parent(p)[..|q|];
    }
  }

  /** A directory tree stays one whatever is unpacked into it. */
  lemma UnpackKeepsOk(t: Tree, e: Entry)
    requires TreeOk(t)
    ensures Unpack(t, e).Some? ==> TreeOk(Unpack(t, e).value)
  {
    PartsProper(e.name);
    if Unpack(t, e).Some? {
      match e
      case DirEntry(_) => MkdirKeepsOk(t, Parts(e.name));
      case FileEntry(_, content) => PutKeepsOk(t, Parts(e.name), content);
    }
  }

  lemma {:induction false} UnpackFails(t: Tree, es: seq<Entry>, k: nat)
    requires k <= |es| && UnpackAll(t, es[..k]).None?
    ensures UnpackAll(t, es).None?
    decreases |es| - k
  {
    if k < |es| {
      assert es[..k + 1][..k] == es[..k];
      UnpackFails(t, es, k + 1);
    } else {
      assert es[..k] == es;
    }
  }

  // ---- Packing ----

  /** What WalkDir visits: every file and directory once, in some order, with
      the root itself possibly among them. */
  ghost predicate IsWalk(t: Tree, walk: seq<Path>) {
    && (forall p :: p in walk ==> p == [] || p in t.files || p in t.dirs)
    && (forall p :: p in t.files || p in t.dirs ==> p in walk)
  }

  function PackOne(t: Tree, p: Path): seq<Entry> {
    if p in t.files then [FileEntry(FileName(p), t.files[p])]
    else if p == [] then []
    else [DirEntry(DirName(p))]
  }

  function Pack(t: Tree, walk: seq<Path>): seq<Entry> {
    if walk == [] then [] else Pack(t, walk[..|walk| - 1]) + PackOne(t, walk[|walk| - 1])
  }

  method WriteTar(t: Tree, walk: seq<Path>) returns (es: seq<Entry>)
    ensures es == Pack(t, walk)
  {
    es := [];
    for k := 0 to |walk|
      invariant es == Pack(t, walk[..k])
    {
      assert walk[..k + 1][..k] == walk[..k];
      var p := walk[k];
      if p in t.files {
        es := es + [FileEntry(FileName(p), t.files[p])];
      } else if p != [] {
        es := es + [DirEntry(DirName(p))];
      }
    }
    assert walk[..|walk|] == walk;
  }

  /** WriteTarFiles: only the named files; others are skipped. */
  method WriteTarFiles(t: Tree, rels: seq<Path>) returns (es: seq<Entry>)
    ensures es == Pack(t, Regular(t, rels))
  {
    es := [];
    for k := 0 to |rels|
      invariant es == Pack(t, Regular(t, rels[..k]))
    {
      assert rels[..k + 1][..k] == rels[..k];
      if rels[k] in t.files {
        assert (Regular(t, rels[..k]) + [rels[k]])[..|Regular(t, rels[..k])|] == Regular(t, rels[..k]);
        es := es + [FileEntry(FileName(rels[k]), t.files[rels[k]])];
      }
    }
    assert rels[..|rels|] == rels;
  }

  function Regular(t: Tree, rels: seq<Path>): seq<Path> {
    if rels == [] then []
    else
      var init, last := rels[..|rels| - 1], rels[|rels| - 1];
      if last in t.files then Regular(t, init) + [last] else Regular(t, init)
  }

  /** What is packed of a list of names: those that are regular files by then. */
  lemma {:induction false} RegularAre(t: Tree, rels: seq<Path>, p: Path)
    ensures p in Regular(t, rels) <==> p in rels && p in t.files
    ensures multiset(Regular(t, rels))[p] == if p in t.files then multiset(rels)[p] else 0
  {
    if rels != [] {
      var init, last := rels[..|rels| - 1], rels[|rels| - 1];
      assert rels == init + [last];
      RegularAre(t, init, p);
    }
  }

  // ---- What unpacking a packed walk does ----

  /** What must be a directory for p: everything above it, and p itself unless
      it is a file. */
  function NeededFor(t: Tree, p: Path): set<Path> {
    Prefixes(if p in t.files then Parent(p) else p)
  }

  function Needed(t: Tree, walk: seq<Path>): set<Path> {
    if walk == [] then {} else Needed(t, walk[..|walk| - 1]) + NeededFor(t, walk[|walk| - 1])
  }

  /** The files of t among the paths walked. */
  function Picked(t: Tree, walk: seq<Path>): map<Path, Content> {
    map p | p in walk && p in t.files :: t.files[p]
  }

  predicate PathsOf(t: Tree, walk: seq<Path>) {
    forall p :: p in walk ==> p == [] || p in t.files || p in t.dirs
  }

  /** A file of base is in the way of a directory, or a directory of a file. */
  predicate Clash(base: Tree, t: Tree, walk: seq<Path>) {
    base.files.Keys * Needed(t, walk) != {} || base.dirs * Picked(t, walk).Keys != {}
  }

  function Overlay(base: Tree, t: Tree, walk: seq<Path>): Tree {
    Tree(base.files + Picked(t, walk), base.dirs + Needed(t, walk))
  }

  lemma PrefixesAre(p: Path, d: Path)
    ensures d in Prefixes(p) <==> d != [] && d <= p
  {
    if d != [] && d <= p {
      assert d == p[..|d|];
    }
  }

  lemma NeededForAre(t: Tree, p: Path, d: Path)
    requires [] !in t.files
    ensures d in NeededFor(t, p) <==> d != [] && (d < p || (d == p && p !in t.files))
  {
    var q := if p in t.files then Parent(p) else p;
    PrefixesAre(q, d);
    if p in t.files {
      if d <= q { assert d == p[..|d|]; }
      if d < p { assert d == p[..|d|] == q[..|d|]; }
    }
  }

  /** In a valid tree, what must be a directory is one. */
  lemma NeededForAreDirs(t: Tree, p: Path)
    requires TreeOk(t) && (p == [] || p in t.files || p in t.dirs)
    ensures NeededFor(t, p) <= t.dirs
  {
    forall d | d in NeededFor(t, p) ensures d in t.dirs {
      NeededForAre(t, p, d);
      if d != p { assert Above(d, p); }
    }
  }

  lemma {:induction false} NeededAreDirs(t: Tree, walk: seq<Path>)
    requires TreeOk(t) && PathsOf(t, walk)
    ensures Needed(t, walk) <= t.dirs
  {
    if walk != [] {
      NeededAreDirs(t, walk[..|walk| - 1]);
      NeededForAreDirs(t, walk[|walk| - 1]);
    }
  }

  lemma {:induction false} NeededHas(t: Tree, walk: seq<Path>, p: Path)
    requires p in walk
    ensures NeededFor(t, p) <= Needed(t, walk)
  {
    if p != walk[|walk| - 1] {
      NeededHas(t, walk[..|walk| - 1], p);
    }
  }

  lemma PickedSnoc(t: Tree, init: seq<Path>, p: Path)
    ensures Picked(t, init + [p]) == if p in t.files then Picked(t, init)[p := t.files[p]] else Picked(t, init)
  {
  }

  lemma NeededSnoc(t: Tree, init: seq<Path>, p: Path)
    ensures Needed(t, init + [p]) == Needed(t, init) + NeededFor(t, p)
  {
    assert (init + [p])[..|init + [p]| - 1] == init;
  }

  /** The directories of one more path: they can be made exactly when no file
      of base is in the way. */
  lemma MakeNeeded(base: Tree, t: Tree, init: seq<Path>, p: Path)
    requires TreeOk(t) && (p in t.files || p in t.dirs)
    ensures var made := MkdirAll(Overlay(base, t, init), if p in t.files then Parent(p) else p);
            (made.None? <==> base.files.Keys * NeededFor(t, p) != {})
            && (made.Some? ==> made.value == Tree(base.files + Picked(t, init), base.dirs + Needed(t, init + [p])))
  {
    NeededForAreDirs(t, p);
    NeededSnoc(t, init, p);
    var n, files := NeededFor(t, p), Overlay(base, t, init).files;
    assert n !! Picked(t, init).Keys;
    assert n * files.Keys == base.files.Keys * n;
    assert (base.dirs + Needed(t, init)) + n == base.dirs + (Needed(t, init) + n);
  }

  lemma ClashSnoc(base: Tree, t: Tree, init: seq<Path>, p: Path)
    requires !Clash(base, t, init)
    ensures Clash(base, t, init + [p]) <==>
              base.files.Keys * NeededFor(t, p) != {} || (p in t.files && p in base.dirs)
  {
    NeededSnoc(t, init, p);
    PickedSnoc(t, init, p);
    var n, d := base.files.Keys * NeededFor(t, p), base.dirs;
    assert base.files.Keys * Needed(t, init + [p]) == base.files.Keys * Needed(t, init) + n;
    if p in t.files {
      assert d * Picked(t, init + [p]).Keys == d * Picked(t, init).Keys + d * {p};
      assert p in d ==> p in d * {p};
    }
  }

  lemma LastWriteWins(a: map<Path, Content>, b: map<Path, Content>, p: Path, content: Content)
    ensures (a + b)[p := content] == a + b[p := content]
  {
  }

  lemma PlaceFile(base: Tree, t: Tree, init: seq<Path>, p: Path)
    requires p in t.files && p != [] && p !in Needed(t, init + [p])
    requires base.files.Keys * NeededFor(t, p) == {}
    requires MkdirAll(Overlay(base, t, init), Parent(p))
          == Some(Tree(base.files + Picked(t, init), base.dirs + Needed(t, init + [p])))
    ensures PutFile(Overlay(base, t, init), p, t.files[p])
         == if p in base.dirs then None else Some(Overlay(base, t, init + [p]))
  {
    PickedSnoc(t, init, p);
    LastWriteWins(base.files, Picked(t, init), p, t.files[p]);
  }

  /** Unpacking one more path of a valid tree fails exactly on a clash. */
  lemma PlaceOne(base: Tree, t: Tree, init: seq<Path>, p: Path)
    requires TreeOk(t) && PathsOf(t, init) && (p in t.files || p in t.dirs)
    requires !Clash(base, t, init)
    ensures Unpack(Overlay(base, t, init), PackOne(t, p)[0])
         == if Clash(base, t, init + [p]) then None else Some(Overlay(base, t, init + [p]))
  {
    NamesResolve(p);
    MakeNeeded(base, t, init, p);
    ClashSnoc(base, t, init, p);
    NeededAreDirs(t, init + [p]);
    PickedSnoc(t, init, p);
    if p in t.files {
      assert p !in Needed(t, init + [p]);
      if base.files.Keys * NeededFor(t, p) == {} {
        PlaceFile(base, t, init, p);
      }
    }
  }

  /** Unpacking any packed list of a valid tree's paths onto a tree: it succeeds
      exactly when nothing clashes, and then overlays files and directories. */
  lemma {:induction false} UnpackPacked(base: Tree, t: Tree, walk: seq<Path>)
    requires TreeOk(t) && PathsOf(t, walk)
    ensures UnpackAll(base, Pack(t, walk)) == if Clash(base, t, walk) then None else Some(Overlay(base, t, walk))
  {
    if walk == [] {
      assert Picked(t, walk) == map[];
      assert Overlay(base, t, walk) == base;
    } else {
      var init, p := walk[..|walk| - 1], walk[|walk| - 1];
      assert walk == init + [p];
      UnpackPacked(base, t, init);
      if p == [] {
        RootAddsNothing(base, t, init);
      } else {
        PackSnoc(t, init, p);
        if Clash(base, t, init) {
          ClashGrows(base, t, init, p);
        } else {
          PlaceOne(base, t, init, p);
        }
      }
    }
  }

  /** The walk's own root is skipped. */
  lemma RootAddsNothing(base: Tree, t: Tree, init: seq<Path>)
    requires [] !in t.files
    ensures Pack(t, init + [[]]) == Pack(t, init)
    ensures Overlay(base, t, init + [[]]) == Overlay(base, t, init)
    ensures Clash(base, t, init + [[]]) == Clash(base, t, init)
  {
    NeededSnoc(t, init, []);
    PickedSnoc(t, init, []);
    assert (init + [[]])[..|init + [[]]| - 1] == init;
    assert NeededFor(t, []) == {};
  }

  lemma PackSnoc(t: Tree, init: seq<Path>, p: Path)
    requires p != []
    ensures var es := Pack(t, init + [p]);
            |es| > 0 && es[..|es| - 1] == Pack(t, init) && es[|es| - 1] == PackOne(t, p)[0]
  {
    assert (init + [p])[..|init + [p]| - 1] == init;
    assert PackOne(t, p) == [PackOne(t, p)[0]];
  }

  lemma ClashGrows(base: Tree, t: Tree, init: seq<Path>, p: Path)
    requires Clash(base, t, init)
    ensures Clash(base, t, init + [p])
  {
    NeededSnoc(t, init, p);
    PickedSnoc(t, init, p);
    if base.files.Keys * Needed(t, init) != {} {
      var d :| d in base.files.Keys * Needed(t, init);
      assert d in base.files.Keys * Needed(t, init + [p]);
    } else {
      var f :| f in base.dirs * Picked(t, init).Keys;
      assert f in base.dirs * Picked(t, init + [p]).Keys;
    }
  }

  /** --dir: unpacking a tree's archive into an empty directory gives the tree
      back, in whatever order the walk visited it. */
  lemma TarRoundTrip(t: Tree, walk: seq<Path>)
    requires TreeOk(t) && IsWalk(t, walk)
    ensures UnpackAll(EMPTY, Pack(t, walk)) == Some(t)
  {
    UnpackPacked(EMPTY, t, walk);
    NeededAreDirs(t, walk);
    assert EMPTY.files + Picked(t, walk) == t.files;
    forall d | d in t.dirs ensures d in Needed(t, walk) {
      NeededHas(t, walk, d);
      NeededForAre(t, d, d);
    }
    assert EMPTY.dirs + Needed(t, walk) == t.dirs;
    assert EMPTY.files.Keys * Needed(t, walk) == {} && EMPTY.dirs * Picked(t, walk).Keys == {};
  }

  // ---- The content-hash delta ----

  function SnapshotOf<H>(t: Tree, hash: Content -> H): map<Path, H> {
    map p | p in t.files :: hash(t.files[p])
  }

  /** New since the snapshot, or hashing differently. */
  predicate Changed<H(==)>(t: Tree, hash: Content -> H, snap: map<Path, H>, p: Path) {
    p in t.files && (p !in snap || snap[p] != hash(t.files[p]))
  }

  method Snapshot<H>(t: Tree, walk: seq<Path>, hash: Content -> H) returns (snap: map<Path, H>)
    requires IsWalk(t, walk)
    ensures snap == SnapshotOf(t, hash)
  {
    snap := map[];
    for k := 0 to |walk|
      invariant snap == map p | p in walk[..k] && p in t.files :: hash(t.files[p])
    {
      assert walk[..k + 1] == walk[..k] + [walk[k]];
      if walk[k] in t.files {
        snap := snap[walk[k] := hash(t.files[walk[k]])];
      }
    }
    assert walk[..|walk|] == walk;
  }

  method ChangedSince<H(==)>(t: Tree, walk: seq<Path>, hash: Content -> H, snap: map<Path, H>)
    returns (changed: seq<Path>)
    requires IsWalk(t, walk)
    ensures forall p :: p in changed <==> p in t.files && (p !in snap || snap[p] != hash(t.files[p]))
    ensures SortedNames(changed)
  {
    changed := [];
    for k := 0 to |walk|
      invariant forall p :: p in changed <==> p in walk[..k] && Changed(t, hash, snap, p)
    {
      assert walk[..k + 1] == walk[..k] + [walk[k]];
      var p := walk[k];
      if p in t.files {
        var h := hash(t.files[p]);
        if p !in snap || snap[p] != h {
          changed := changed + [p];
        }
      }
    }
    assert walk[..|walk|] == walk;
    SortKeeps(changed);
    changed := SortNames(changed);
  }

  // ---- Sorting by name ----

  /** Go's string order. */
  predicate NameLE(a: string, b: string) {
    a == "" || (b != "" && (a[0] < b[0] || (a[0] == b[0] && NameLE(a[1..], b[1..]))))
  }

  lemma {:induction false} NameTotal(a: string, b: string)
    ensures NameLE(a, b) || NameLE(b, a)
  {
    if a != "" && b != "" && a[0] == b[0] {
      NameTotal(a[1..], b[1..]);
    }
  }

  lemma {:induction false} NameTrans(a: string, b: string, c: string)
    requires NameLE(a, b) && NameLE(b, c)
    ensures NameLE(a, c)
  {
    if a != "" && b != "" && c != "" && a[0] == b[0] == c[0] {
      NameTrans(a[1..], b[1..], c[1..]);
    }
  }

  predicate SortedNames(ps: seq<Path>) {
    forall i, j :: 0 <= i < j < |ps| ==> NameLE(FileName(ps[i]), FileName(ps[j]))
  }

  function InsertName(p: Path, ps: seq<Path>): seq<Path> {
    if ps == [] || NameLE(FileName(p), FileName(ps[0])) then [p] + ps else [ps[0]] + InsertName(p, ps[1..])
  }

  /** sort.Strings */
  function SortNames(ps: seq<Path>): seq<Path> {
    if ps == [] then [] else InsertName(ps[0], SortNames(ps[1..]))
  }

  lemma {:induction false} InsertKeeps(p: Path, ps: seq<Path>)
    requires SortedNames(ps)
    ensures SortedNames(InsertName(p, ps))
    ensures forall q :: q in InsertName(p, ps) <==> q == p || q in ps
  {
    if ps != [] && NameLE(FileName(p), FileName(ps[0])) {
      forall j | 1 <= j < |ps| ensures NameLE(FileName(p), FileName(ps[j])) {
        NameTrans(FileName(p), FileName(ps[0]), FileName(ps[j]));
      }
    } else if ps != [] {
      InsertKeeps(p, ps[1..]);
      NameTotal(FileName(p), FileName(ps[0]));
      var r := InsertName(p, ps[1..]);
      forall j | 0 <= j < |r| ensures NameLE(FileName(ps[0]), FileName(r[j])) {
        assert r[j] in r;
        if r[j] in ps[1..] {
          var i :| 0 <= i < |ps[1..]| && ps[1..][i] == r[j];
          assert ps[i + 1] == r[j];
        }
      }
      assert forall q :: q in ps <==> q == ps[0] || q in ps[1..];
    }
  }

  lemma {:induction false} SortKeeps(ps: seq<Path>)
    ensures SortedNames(SortNames(ps)) && forall q :: q in SortNames(ps) <==> q in ps
  {
    if ps != [] {
      SortKeeps(ps[1..]);
      InsertKeeps(ps[0], SortNames(ps[1..]));
      assert forall q :: q in ps <==> q == ps[0] || q in ps[1..];
    }
  }

  // ---- --sync, end to end ----

  /** Two files the command changed hash alike: the delta would miss them. */
  ghost predicate Collision<H>(before: Tree, after: Tree, hash: Content -> H) {
    exists p :: Collides(before, after, hash, p)
  }

  ghost predicate Collides<H>(before: Tree, after: Tree, hash: Content -> H, p: Path) {
    && p in before.files && p in after.files
    && before.files[p] != after.files[p] && hash(before.files[p]) == hash(after.files[p])
  }

  ghost predicate IsDelta<H>(before: Tree, after: Tree, hash: Content -> H, changed: seq<Path>) {
    forall p :: p in changed <==> Changed(after, hash, SnapshotOf(before, hash), p)
  }

  lemma {:induction false} RegularAll(t: Tree, rels: seq<Path>)
    requires forall p :: p in rels ==> p in t.files
    ensures Regular(t, rels) == rels
  {
    if rels != [] {
      RegularAll(t, rels[..|rels| - 1]);
      assert rels == rels[..|rels| - 1] + [rels[|rels| - 1]];
    }
  }

  /** local was uploaded, the command turned it into remote, and the changed
      files are mirrored onto the unchanged local tree. Unpacking succeeds
      exactly when no changed file clashes with a local directory or file; then
      local ends up as the original overridden by remote, deletions kept, if and
      only if no changed content collides under the hash. */
  lemma SyncMirrorsBack<H>(local: Tree, remote: Tree, hash: Content -> H, changed: seq<Path>)
    requires TreeOk(local) && TreeOk(remote)
    requires IsDelta(local, remote, hash, changed)
    ensures var r := UnpackAll(local, Pack(remote, Regular(remote, changed)));
            (r.None? <==> Clash(local, remote, changed))
            && (r.Some? ==> (r.value.files == local.files + remote.files <==> !Collision(local, remote, hash)))
  {
    RegularAll(remote, changed);
    UnpackPacked(local, remote, changed);
    OverlayIsOverride(local, remote, hash, changed);
  }

  lemma OverlayIsOverride<H>(local: Tree, remote: Tree, hash: Content -> H, changed: seq<Path>)
    requires IsDelta(local, remote, hash, changed)
    ensures local.files + Picked(remote, changed) == local.files + remote.files <==> !Collision(local, remote, hash)
  {
    var got, want := local.files + Picked(remote, changed), local.files + remote.files;
    if Collision(local, remote, hash) {
      var p :| Collides(local, remote, hash, p);
      assert p !in changed;
      assert got[p] == local.files[p];
      assert want[p] == remote.files[p];
    } else {
      forall p | p in want ensures p in got && got[p] == want[p] {
        assert !Collides(local, remote, hash, p);
      }
      assert got == want;
    }
  }
}
