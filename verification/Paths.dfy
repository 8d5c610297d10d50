/** Slash-separated paths: Go's filepath.Clean and filepath.Join on rooted paths,
    and the containment check every unpacked entry goes through. */
module Paths {
  import opened Prelude

  type Path = seq<string>

  /** The pieces between slashes; always at least one, possibly empty. */
  function Split(s: string): (r: seq<string>)
    ensures r != []
  {
    if s == "" then [""]
    else
      var r := Split(s[1..]);
      Cons(s[0], r)
  }

  function JoinSep(p: Path): string {
    if p == [] then "" else if |p| == 1 then p[0] else p[0] + "/" + JoinSep(p[1..])
  }

  /** A name that stands for itself in a cleaned path. */
  predicate Proper(c: string) {
    c != "" && c != "." && c != ".." && '/' !in c
  }

  predicate ProperPath(p: Path) {
    forall i :: 0 <= i < |p| ==> Proper(p[i])
  }

  /** One component read on top of the cleaned path so far. */
  function Enter(p: Path, c: string): Path {
    if c == "" || c == "." then p
    else if c == ".." then (if p == [] then [] else p[..|p| - 1])
    else p + [c]
  }

  function Resolve(p: Path, cs: seq<string>): Path
    decreases |cs|
  {
    if cs == [] then p else Resolve(Enter(p, cs[0]), cs[1..])
  }

  /** The components of a cleaned rooted path. */
  function Parts(s: string): Path {
    Resolve([], Split(s))
  }

  function Rooted(p: Path): string {
    "/" + JoinSep(p)
  }

  /** filepath.Clean of a path that starts with a slash */
  function CleanRooted(s: string): string {
    Rooted(Parts(s))
  }

  predicate HasPrefix(s: string, prefix: string) {
    prefix <= s
  }

  /** safeJoin: None is the "unsafe path" error. */
  function SafeJoin(root: string, name: string): Option<string> {
    var clean := CleanRooted("/" + name);
    var dest := CleanRooted(root + "/" + clean);
    if dest != root && !HasPrefix(dest, root + "/") then None else Some(dest)
  }

  // ---- Splitting and joining ----

  lemma {:induction false} SplitAtSlash(a: string, b: string)
    ensures Split(a + "/" + b) == Split(a) + Split(b)
    decreases |a|
  {
    if a == "" {
      assert a + "/" + b == "/" + b;
      assert ("/" + b)[1..] == b;
    } else {
      var s := a + "/" + b;
      assert s[0] == a[0] && s[1..] == a[1..] + "/" + b;
      SplitAtSlash(a[1..], b);
      ConsSplit(a[0], Split(a[1..]), Split(b));
    }
  }

  /** One more character in front of a split text. */
  function Cons(c: char, r: seq<string>): seq<string>
    requires r != []
  {
    if c == '/' then [""] + r else [[c] + r[0]] + r[1..]
  }

  lemma ConsSplit(c: char, r: seq<string>, q: seq<string>)
    requires r != []
    ensures Cons(c, r + q) == Cons(c, r) + q
  {
  }

  lemma {:induction false} SplitProper(c: string)
    requires '/' !in c
    ensures Split(c) == [c]
  {
    if c != "" {
      SplitProper(c[1..]);
      assert [c[0]] + c[1..] == c;
    }
  }

  lemma {:induction false} SplitJoin(p: Path)
    requires p != [] && ProperPath(p)
    ensures Split(JoinSep(p)) == p
  {
    SplitProper(p[0]);
    if |p| > 1 {
      SplitJoin(p[1..]);
      SplitAtSlash(p[0], JoinSep(p[1..]));
      assert p == [p[0]] + p[1..];
    } else {
      assert p == [p[0]];
    }
  }

  lemma {:induction false} JoinConcat(p: Path, q: Path)
    requires p != [] && q != []
    ensures JoinSep(p + q) == JoinSep(p) + "/" + JoinSep(q)
  {
    if |p| > 1 {
      assert (p + q)[1..] == p[1..] + q;
      JoinConcat(p[1..], q);
      assert p[0] + "/" + (JoinSep(p[1..]) + "/" + JoinSep(q)) == JoinSep(p) + "/" + JoinSep(q);
    } else {
      assert (p + q)[1..] == q;
    }
  }

  // ---- Resolving ----

  lemma {:induction false} ResolveConcat(p: Path, a: seq<string>, b: seq<string>)
    ensures Resolve(p, a + b) == Resolve(Resolve(p, a), b)
    decreases |a|
  {
    if a == [] {
      assert a + b == b;
    } else {
      assert (a + b)[1..] == a[1..] + b;
      ResolveConcat(Enter(p, a[0]), a[1..], b);
    }
  }

  lemma {:induction false} ResolveProper(p: Path, q: Path)
    requires ProperPath(q)
    ensures Resolve(p, q) == p + q
    decreases |q|
  {
    if q == [] {
      assert p + q == p;
    } else {
      ResolveProper(p + [q[0]], q[1..]);
      assert p + [q[0]] + q[1..] == p + q;
    }
  }

  predicate SlashFree(cs: seq<string>) {
    forall i :: 0 <= i < |cs| ==> '/' !in cs[i]
  }

  lemma {:induction false} SplitSlashFree(s: string)
    ensures SlashFree(Split(s))
  {
    if s != "" {
      SplitSlashFree(s[1..]);
      var r := Split(s[1..]);
      assert '/' !in r[0];
    }
  }

  lemma {:induction false} ResolveIsProper(p: Path, cs: seq<string>)
    requires ProperPath(p) && SlashFree(cs)
    ensures ProperPath(Resolve(p, cs))
    decreases |cs|
  {
    if cs != [] {
      ResolveIsProper(Enter(p, cs[0]), cs[1..]);
    }
  }

  lemma PartsProper(s: string)
    ensures ProperPath(Parts(s))
  {
    SplitSlashFree(s);
    ResolveIsProper([], Split(s));
  }

  /** A cleaned path resolves to itself. */
  lemma RootedParts(p: Path)
    requires ProperPath(p)
    ensures Parts(Rooted(p)) == p
  {
    assert Rooted(p) == "" + "/" + JoinSep(p);
    SplitAtSlash("", JoinSep(p));
    assert Split("") == [""];
    ResolveConcat([], [""], Split(JoinSep(p)));
    assert Resolve([], [""]) == Resolve([], []) == [];
    if p != [] {
      SplitJoin(p);
      ResolveProper([], p);
      assert [] + p == p;
    } else {
      assert Split(JoinSep(p)) == [""];
    }
  }

  /** Distinct cleaned paths are distinct strings. */
  lemma RootedInjective(p: Path, q: Path)
    requires ProperPath(p) && ProperPath(q) && Rooted(p) == Rooted(q)
    ensures p == q
  {
    RootedParts(p);
    RootedParts(q);
  }

  /** A leading slash changes nothing. */
  lemma PartsOfSlash(name: string)
    ensures Parts("/" + name) == Parts(name)
  {
    assert "/" + name == "" + "/" + name;
    SplitAtSlash("", name);
    ResolveConcat([], [""], Split(name));
  }

  lemma JoinedParts(root: Path, p: Path)
    requires ProperPath(root) && ProperPath(p)
    ensures Parts(Rooted(root) + "/" + Rooted(p)) == root + p
  {
    SplitAtSlash(Rooted(root), Rooted(p));
    ResolveConcat([], Split(Rooted(root)), Split(Rooted(p)));
    RootedParts(root);
    assert Rooted(p) == "" + "/" + JoinSep(p);
    SplitAtSlash("", JoinSep(p));
    ResolveConcat(root, [""], Split(JoinSep(p)));
    if p != [] {
      SplitJoin(p);
      ResolveProper(root, p);
    } else {
      assert root + p == root;
      assert Split(JoinSep(p)) == [""];
    }
  }

  // ---- What cleaning means, component by component ----

  /** One more component on a path: an empty one and "." change nothing, ".." goes
      up and stops at the root, and a proper name goes down. */
  lemma PartsLaws(s: string, c: string)
    requires '/' !in c
    ensures Parts("") == []
    ensures c == "" || c == "." ==> Parts(s + "/" + c) == Parts(s)
    ensures c == ".." ==> Parts(s + "/" + c) == if Parts(s) == [] then [] else Parts(s)[..|Parts(s)| - 1]
    ensures Proper(c) ==> Parts(s + "/" + c) == Parts(s) + [c]
  {
    SplitAtSlash(s, c);
    SplitProper(c);
    ResolveConcat([], Split(s), [c]);
    assert Resolve(Enter(Parts(s), c), [c][1..]) == Enter(Parts(s), c);
    assert Split("") == [""] && Resolve([], [""]) == Resolve([], [""][1..]);
  }

  // ---- Main results ----

  /** For every clean absolute root and every entry name whatsoever: safeJoin
      succeeds unless the root is "/" itself and the name is not empty, and then
      yields the root's components followed by the cleaned name's, none of them "..". */
  lemma SafeJoinContains(root: Path, name: string)
    requires ProperPath(root)
    ensures SafeJoin(Rooted(root), name) ==
              if root == [] && Parts(name) != [] then None else Some(Rooted(root + Parts(name)))
    ensures ProperPath(Parts(name)) && ".." !in Parts(name)
    ensures SafeJoin(Rooted(root), name).Some? ==>
              Parts(SafeJoin(Rooted(root), name).value) == root + Parts(name)
  {
    var p := Parts(name);
    PartsProper(name);
    PartsOfSlash(name);
    JoinedParts(root, p);
    RootedParts(root + p);
    if p == [] {
      assert root + p == root;
    } else if root == [] {
      assert root + p == p && Rooted(root) == "/";
      assert Rooted(p)[1] == p[0][0] by {
        assert JoinSep(p)[0] == p[0][0];
      }
      assert Rooted(p)[1] != '/' && ("/" + "/")[1] == '/';
      assert Rooted(p) != "/";
    } else {
      JoinConcat(root, p);
      assert Rooted(root + p) == Rooted(root) + "/" + JoinSep(p);
      assert HasPrefix(Rooted(root + p), Rooted(root) + "/");
    }
  }

  /** The name WriteTar gives a file, and a directory. */
  function FileName(p: Path): string {
    JoinSep(p)
  }

  function DirName(p: Path): string {
    JoinSep(p) + "/"
  }

  lemma NamesResolve(p: Path)
    requires ProperPath(p) && p != []
    ensures Parts(FileName(p)) == p && Parts(DirName(p)) == p
  {
    SplitJoin(p);
    ResolveProper([], p);
    assert [] + p == p;
    assert DirName(p) == JoinSep(p) + "/" + "";
    SplitAtSlash(JoinSep(p), "");
    ResolveConcat([], p, [""]);
  }

  /** The tar writer's names land where they came from, and distinct ones land on
      distinct destinations. */
  lemma WriterNamesLand(root: Path, p: Path, q: Path)
    requires ProperPath(root) && root != []
    requires ProperPath(p) && p != [] && ProperPath(q) && q != []
    ensures SafeJoin(Rooted(root), FileName(p)) == Some(Rooted(root) + "/" + FileName(p))
    ensures SafeJoin(Rooted(root), DirName(p)) == Some(Rooted(root) + "/" + FileName(p))
    ensures SafeJoin(Rooted(root), FileName(p)) == SafeJoin(Rooted(root), FileName(q)) ==> p == q
  {
    NamesResolve(p);
    NamesResolve(q);
    SafeJoinContains(root, FileName(p));
    SafeJoinContains(root, DirName(p));
    SafeJoinContains(root, FileName(q));
    JoinConcat(root, p);
    assert Rooted(root + p) == Rooted(root) + "/" + JoinSep(p);
    if Rooted(root + p) == Rooted(root + q) {
      RootedInjective(root + p, root + q);
      assert (root + p)[|root|..] == p && (root + q)[|root|..] == q;
    }
  }
}
