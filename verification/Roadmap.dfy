/** The roadmap tool's topological sort and the dependency part of its
    validation, as loops over in-degrees, adjacency lists and a sorted ready list. */
module Roadmap {
  import opened Kahn

  datatype Item = Item(id: Id, depends: seq<Id>)

  function Ids(items: seq<Item>): set<Id> {
    set it | it in items :: it.id
  }

  predicate DistinctIds(items: seq<Item>) {
    forall i, j :: 0 <= i < j < |items| ==> items[i].id != items[j].id
  }

  /** by_id[id]["depends"]; a dependency may be listed several times. */
  function DependsOf(items: seq<Item>, id: Id): seq<Id> {
    if items == [] then []
    else if items[0].id == id then items[0].depends
    else DependsOf(items[1..], id)
  }

  /** The known-dependency graph. */
  function GraphOf(items: seq<Item>): Graph {
    map i | i in Ids(items) :: set d | d in DependsOf(items, i) && d in Ids(items)
  }

  lemma {:induction false} DependsAt(items: seq<Item>, k: nat)
    requires k < |items| && DistinctIds(items)
    ensures DependsOf(items, items[k].id) == items[k].depends
  {
    if k > 0 {
      assert items[1..][k - 1] == items[k];
      DependsAt(items[1..], k - 1);
    }
  }

  // ---- Sorting ----

  predicate Sorted(s: seq<Id>) {
    forall i, j :: 0 <= i < j < |s| ==> s[i] <= s[j]
  }

  function Insert(x: Id, s: seq<Id>): (r: seq<Id>)
    requires Sorted(s)
    ensures Sorted(r) && multiset(r) == multiset(s) + multiset{x}
  {
    if s == [] then [x]
    else if x <= s[0] then [x] + s
    else
      var r := Insert(x, s[1..]);
      InsertedAfter(x, s, r);
      [s[0]] + r
  }

  lemma InsertedAfter(x: Id, s: seq<Id>, r: seq<Id>)
    requires s != [] && Sorted(s) && s[0] < x
    requires Sorted(r) && multiset(r) == multiset(s[1..]) + multiset{x}
    ensures Sorted([s[0]] + r) && multiset([s[0]] + r) == multiset(s) + multiset{x}
  {
    forall i | 0 <= i < |r| ensures s[0] <= r[i] {
      assert r[i] in multiset(r);
      if r[i] != x {
        assert r[i] in s[1..];
      }
    }
    assert s == [s[0]] + s[1..];
  }

  /** Python's sorted() */
  function SortIds(s: seq<Id>): (r: seq<Id>)
    ensures Sorted(r) && multiset(r) == multiset(s)
  {
    if s == [] then []
    else
      assert s == [s[0]] + s[1..];
      Insert(s[0], SortIds(s[1..]))
  }

  lemma SameElems(a: seq<Id>, b: seq<Id>)
    requires multiset(a) == multiset(b)
    ensures Elems(a) == Elems(b)
  {
    forall x ensures x in a <==> x in b { assert x in a <==> x in multiset(a); assert x in b <==> x in multiset(b); }
  }

  // ---- Counting unmet dependencies ----

  /** Entries of deps that name a known item outside done, with repetition. */
  function Unmet(deps: seq<Id>, ids: set<Id>, done: set<Id>): nat {
    if deps == [] then 0
    else (if deps[0] in ids && deps[0] !in done then 1 else 0) + Unmet(deps[1..], ids, done)
  }

  lemma {:induction false} UnmetSnoc(deps: seq<Id>, d: Id, ids: set<Id>, done: set<Id>)
    ensures Unmet(deps + [d], ids, done) == Unmet(deps, ids, done) + (if d in ids && d !in done then 1 else 0)
  {
    if deps == [] {
      assert deps + [d] == [d];
    } else {
      assert (deps + [d])[1..] == deps[1..] + [d];
      UnmetSnoc(deps[1..], d, ids, done);
    }
  }

  lemma {:induction false} UnmetZero(deps: seq<Id>, ids: set<Id>, done: set<Id>)
    ensures Unmet(deps, ids, done) == 0 <==> forall d :: d in deps && d in ids ==> d in done
  {
    if deps != [] {
      UnmetZero(deps[1..], ids, done);
      assert forall d :: d in deps <==> d == deps[0] || d in deps[1..];
    }
  }

  lemma {:induction false} UnmetEmit(deps: seq<Id>, ids: set<Id>, done: set<Id>, n: Id)
    requires n in ids && n !in done
    ensures Unmet(deps, ids, done) == Unmet(deps, ids, done + {n}) + multiset(deps)[n]
  {
    if deps != [] {
      UnmetEmit(deps[1..], ids, done, n);
      assert deps == [deps[0]] + deps[1..];
    }
  }

  // ---- Building the tables ----

  /** row lists m once for every time m lists d. */
  ghost predicate RowEntry(deps: map<Id, seq<Id>>, row: seq<Id>, d: Id, m: Id)
    requires m in deps
  {
    multiset(row)[m] == multiset(deps[m])[d]
  }

  ghost predicate RowOk(deps: map<Id, seq<Id>>, row: seq<Id>, d: Id) {
    && (forall m :: m in row ==> m in deps)
    && forall m {:trigger RowEntry(deps, row, d, m)} :: m in deps ==> RowEntry(deps, row, d, m)
  }

  ghost predicate Counts(deps: map<Id, seq<Id>>, indeg: map<Id, int>, done: set<Id>, m: Id)
    requires m in deps && m in indeg
  {
    indeg[m] == Unmet(deps[m], deps.Keys, done)
  }

  /** indeg and adj are the tables of the dependency lists deps. */
  ghost predicate Tables(deps: map<Id, seq<Id>>, indeg: map<Id, int>, adj: map<Id, seq<Id>>) {
    && indeg.Keys == adj.Keys == deps.Keys
    && (forall m {:trigger Counts(deps, indeg, {}, m)} :: m in deps ==> Counts(deps, indeg, {}, m))
    && RowsOk(deps, adj)
  }

  ghost predicate RowsOk(deps: map<Id, seq<Id>>, adj: map<Id, seq<Id>>) {
    && adj.Keys == deps.Keys
    && forall d {:trigger RowOk(deps, adj[d], d)} :: d in deps ==> RowOk(deps, adj[d], d)
  }

  ghost function DependsMap(items: seq<Item>): map<Id, seq<Id>> {
    map i | i in Ids(items) :: DependsOf(items, i)
  }

  /** What has been read of item i when the outer loop is at item k and the
      inner loop at entry j. */
  ghost predicate ItemRead(items: seq<Item>, read: map<Id, seq<Id>>, k: nat, j: nat, i: nat)
    requires i < |items| && (k < |items| ==> j <= |items[k].depends|)
  {
    && items[i].id in read
    && read[items[i].id] == if i < k then items[i].depends else if i == k then items[i].depends[..j] else []
  }

  ghost predicate ReadUpTo(items: seq<Item>, read: map<Id, seq<Id>>, k: nat, j: nat)
    requires k < |items| ==> j <= |items[k].depends|
  {
    && read.Keys == Ids(items)
    && forall i: nat {:trigger ItemRead(items, read, k, j, i)} :: i < |items| ==> ItemRead(items, read, k, j, i)
  }

  lemma ReadNext(items: seq<Item>, read: map<Id, seq<Id>>, k: nat, j: nat)
    requires DistinctIds(items) && k < |items| && j < |items[k].depends| && ReadUpTo(items, read, k, j)
    ensures items[k].id in read
    ensures ReadUpTo(items, read[items[k].id := read[items[k].id] + [items[k].depends[j]]], k, j + 1)
  {
    assert ItemRead(items, read, k, j, k);
    var read' := read[items[k].id := read[items[k].id] + [items[k].depends[j]]];
    assert items[k].depends[..j + 1] == items[k].depends[..j] + [items[k].depends[j]];
    var j' := j + 1;
    forall i: nat | i < |items| ensures ItemRead(items, read', k, j', i) { assert ItemRead(items, read, k, j, i); }
  }

  lemma ReadItem(items: seq<Item>, read: map<Id, seq<Id>>, k: nat)
    requires k < |items| && ReadUpTo(items, read, k, |items[k].depends|)
    ensures ReadUpTo(items, read, k + 1, 0)
  {
    var k' := k + 1;
    forall i: nat | i < |items|
      ensures ItemRead(items, read, k', 0, i)
    {
      assert ItemRead(items, read, k, |items[k].depends|, i);
      assert items[i].depends[..|items[i].depends|] == items[i].depends;
    }
  }

  ghost predicate Building(items: seq<Item>, k: nat, j: nat,
                           read: map<Id, seq<Id>>, indeg: map<Id, int>, adj: map<Id, seq<Id>>)
    requires k < |items| ==> j <= |items[k].depends|
  {
    ReadUpTo(items, read, k, j) && Tables(read, indeg, adj)
  }

  /** One entry recorded: an edge to a known item raises an in-degree. */
  function NewIndeg(id: Id, dep: Id, indeg: map<Id, int>): map<Id, int>
    requires id in indeg
  {
    if dep in indeg then indeg[id := indeg[id] + 1] else indeg
  }

  function NewAdj(id: Id, dep: Id, adj: map<Id, seq<Id>>): map<Id, seq<Id>> {
    if dep in adj then adj[dep := adj[dep] + [id]] else adj
  }

  ghost function NextRead(items: seq<Item>, read: map<Id, seq<Id>>, k: nat, j: nat): map<Id, seq<Id>>
    requires k < |items| && j < |items[k].depends| && items[k].id in read
  {
    read[items[k].id := read[items[k].id] + [items[k].depends[j]]]
  }

  lemma BuildEntry(items: seq<Item>, k: nat, j: nat, read: map<Id, seq<Id>>, indeg: map<Id, int>, adj: map<Id, seq<Id>>)
    requires DistinctIds(items) && k < |items| && j < |items[k].depends|
    requires Building(items, k, j, read, indeg, adj)
    ensures items[k].id in read && items[k].id in indeg
    ensures Building(items, k, j + 1, NextRead(items, read, k, j),
                     NewIndeg(items[k].id, items[k].depends[j], indeg), NewAdj(items[k].id, items[k].depends[j], adj))
  {
    var id, dep := items[k].id, items[k].depends[j];
    assert items[k] in items && id in Ids(items);
    ReadNext(items, read, k, j);
    if dep in adj {
      KnownEntry(read, indeg, adj, id, dep);
    } else {
      UnknownEntry(read, indeg, adj, id, dep);
    }
  }

  method AddEdge(id: Id, dep: Id, indeg0: map<Id, int>, adj0: map<Id, seq<Id>>)
    returns (indeg: map<Id, int>, adj: map<Id, seq<Id>>)
    requires id in indeg0 && indeg0.Keys == adj0.Keys
    ensures indeg == NewIndeg(id, dep, indeg0) && adj == NewAdj(id, dep, adj0)
  {
    indeg, adj := indeg0, adj0;
    if dep in adj {
      adj := adj[dep := adj[dep] + [id]];
      indeg := indeg[id := indeg[id] + 1];
    }
  }

  method BuildTables(items: seq<Item>) returns (indeg: map<Id, int>, adj: map<Id, seq<Id>>)
    requires DistinctIds(items)
    ensures Tables(DependsMap(items), indeg, adj)
  {
    indeg := map i | i in Ids(items) :: 0;
    adj := map i | i in Ids(items) :: [];
    ghost var read: map<Id, seq<Id>> := map i | i in Ids(items) :: [];
    assert forall i: nat {:trigger ItemRead(items, read, 0, 0, i)} :: i < |items| ==> ItemRead(items, read, 0, 0, i);
    for k := 0 to |items|
      invariant Building(items, k, 0, read, indeg, adj)
    {
      var it := items[k];
      for j := 0 to |it.depends|
        invariant Building(items, k, j, read, indeg, adj)
      {
        BuildEntry(items, k, j, read, indeg, adj);
        read := NextRead(items, read, k, j);
        indeg, adj := AddEdge(it.id, it.depends[j], indeg, adj);
      }
      ReadItem(items, read, k);
    }
    ReadAllItems(items, read);
  }

  lemma ReadAllItems(items: seq<Item>, read: map<Id, seq<Id>>)
    requires DistinctIds(items) && ReadUpTo(items, read, |items|, 0)
    ensures read == DependsMap(items)
  {
    forall m | m in read
      ensures read[m] == DependsOf(items, m)
    {
      var it :| it in items && it.id == m;
      var i: nat :| i < |items| && items[i] == it;
      assert ItemRead(items, read, |items|, 0, i);
      DependsAt(items, i);
    }
  }

  /** One entry naming a known item read: id gains dep, dep's row gains id. */
  lemma KnownEntry(deps: map<Id, seq<Id>>, indeg: map<Id, int>, adj: map<Id, seq<Id>>, id: Id, dep: Id)
    requires Tables(deps, indeg, adj) && id in deps && dep in deps
    ensures Tables(deps[id := deps[id] + [dep]], indeg[id := indeg[id] + 1], adj[dep := adj[dep] + [id]])
  {
    var deps', indeg', adj' := deps[id := deps[id] + [dep]], indeg[id := indeg[id] + 1], adj[dep := adj[dep] + [id]];
    assert deps'.Keys == deps.Keys;
    UnmetSnoc(deps[id], dep, deps.Keys, {});
    forall m | m in deps' ensures Counts(deps', indeg', {}, m) { assert Counts(deps, indeg, {}, m); }
    forall d | d in deps' ensures RowOk(deps', adj'[d], d) { EntryRow(deps, adj[d], d, id, dep); }
  }

  /** An entry naming an unknown item changes nothing. */
  lemma UnknownEntry(deps: map<Id, seq<Id>>, indeg: map<Id, int>, adj: map<Id, seq<Id>>, id: Id, dep: Id)
    requires Tables(deps, indeg, adj) && id in deps && dep !in deps
    ensures Tables(deps[id := deps[id] + [dep]], indeg, adj)
  {
    var deps' := deps[id := deps[id] + [dep]];
    assert deps'.Keys == deps.Keys;
    UnmetSnoc(deps[id], dep, deps.Keys, {});
    forall m | m in deps' ensures Counts(deps', indeg, {}, m) { assert Counts(deps, indeg, {}, m); }
    forall d | d in deps' ensures RowOk(deps', adj[d], d) { EntryRow(deps, adj[d], d, id, dep); }
  }

  lemma EntryRow(deps: map<Id, seq<Id>>, row: seq<Id>, d: Id, id: Id, dep: Id)
    requires RowOk(deps, row, d) && id in deps
    ensures RowOk(deps[id := deps[id] + [dep]], if d == dep then row + [id] else row, d)
  {
    var deps', row' := deps[id := deps[id] + [dep]], if d == dep then row + [id] else row;
    forall m | m in deps'
      ensures RowEntry(deps', row', d, m)
    {
      assert RowEntry(deps, row, d, m);
    }
  }

  // ---- The main loop ----

  /** The ready list: the items of zero in-degree outside done, in order. */
  ghost predicate ReadyOk(done: set<Id>, indeg: map<Id, int>, ready: seq<Id>) {
    && Sorted(ready) && Distinct(ready)
    && forall m :: m in ready <==> m in indeg && m !in done && indeg[m] == 0
  }

  /** done has been emitted: the in-degrees count what is still unmet. */
  ghost predicate LoopOk(deps: map<Id, seq<Id>>, done: set<Id>, indeg: map<Id, int>, ready: seq<Id>) {
    && done <= deps.Keys == indeg.Keys
    && (forall m {:trigger Counts(deps, indeg, done, m)} :: m in deps ==> Counts(deps, indeg, done, m))
    && (forall m :: m in done ==> indeg[m] == 0)
    && ReadyOk(done, indeg, ready)
  }

  lemma ReadyIsReady(items: seq<Item>, done: set<Id>, indeg: map<Id, int>, ready: seq<Id>)
    requires LoopOk(DependsMap(items), done, indeg, ready)
    ensures Elems(ready) == Ready(GraphOf(items), done)
    ensures ready != [] ==> Ready(GraphOf(items), done) != {} && ready[0] == Least(Ready(GraphOf(items), done))
  {
    var g := GraphOf(items);
    assert DependsMap(items).Keys == Ids(items) == g.Keys;
    forall m
      ensures m in ready <==> m in Ready(g, done)
    {
      if m in g {
        assert DependsMap(items)[m] == DependsOf(items, m) && Counts(DependsMap(items), indeg, done, m);
        UnmetZero(DependsOf(items, m), Ids(items), done);
      }
    }
    if ready != [] {
      assert ready[0] in Ready(g, done);
      var n := Least(Ready(g, done));
      assert n in ready;
    }
  }

  /** Mid-way through the decrements for n: ms[..j] have been applied. */
  ghost predicate InnerOk(deps: map<Id, seq<Id>>, done: set<Id>, n: Id, ms: seq<Id>, j: nat,
                          indeg: map<Id, int>, ready: seq<Id>)
    requires j <= |ms|
  {
    && indeg.Keys == deps.Keys
    && (forall m {:trigger Partly(deps, done, ms[..j], indeg, m)} ::
          m in deps ==> Partly(deps, done, ms[..j], indeg, m))
    && ReadyOk(done + {n}, indeg, ready)
  }

  ghost predicate Partly(deps: map<Id, seq<Id>>, done: set<Id>, applied: seq<Id>, indeg: map<Id, int>, m: Id)
    requires m in deps && m in indeg
  {
    indeg[m] == Unmet(deps[m], deps.Keys, done) - multiset(applied)[m]
  }

  lemma InnerStarts(deps: map<Id, seq<Id>>, done: set<Id>, indeg: map<Id, int>, ready: seq<Id>, ms: seq<Id>)
    requires LoopOk(deps, done, indeg, ready) && ready != []
    ensures InnerOk(deps, done, ready[0], ms, 0, indeg, ready[1..])
  {
    assert ms[..0] == [];
    forall m | m in deps ensures Partly(deps, done, ms[..0], indeg, m) { assert Counts(deps, indeg, done, m); }
    forall m
      ensures m in ready[1..] <==> m in indeg && m !in done + {ready[0]} && indeg[m] == 0
    {
      if m in ready && m != ready[0] {
        var i :| 0 <= i < |ready| && ready[i] == m;
        assert ready[1..][i - 1] == m;
      }
    }
  }

  /** ms is what the adjacency row of n contains, n being ready. */
  ghost predicate Emitting(deps: map<Id, seq<Id>>, done: set<Id>, n: Id, ms: seq<Id>) {
    && done <= deps.Keys && n in deps && n !in done
    && RowOk(deps, ms, n)
    && forall m :: m in done + {n} ==> Unmet(deps[m], deps.Keys, done) == 0
  }

  /** The item about to be decremented still has n to meet. */
  lemma StillUnmet(deps: map<Id, seq<Id>>, done: set<Id>, n: Id, ms: seq<Id>, j: nat)
    requires j < |ms| && Emitting(deps, done, n, ms)
    ensures ms[j] in deps && ms[j] !in done + {n}
    ensures Unmet(deps[ms[j]], deps.Keys, done) > multiset(ms[..j])[ms[j]]
  {
    var m := ms[j];
    assert m in ms && RowEntry(deps, ms, n, m);
    assert ms == ms[..j] + [m] + ms[j + 1..];
    assert multiset(ms)[m] >= multiset(ms[..j])[m] + 1;
    UnmetEmit(deps[m], deps.Keys, done, n);
  }

  /** One decrement; an item that reaches zero joins the ready list. */
  lemma Decrement(deps: map<Id, seq<Id>>, done: set<Id>, n: Id, ms: seq<Id>, j: nat,
                  indeg: map<Id, int>, ready: seq<Id>)
    requires j < |ms| && InnerOk(deps, done, n, ms, j, indeg, ready) && Emitting(deps, done, n, ms)
    ensures ms[j] in indeg
    ensures indeg[ms[j]] == 1 ==>
              InnerOk(deps, done, n, ms, j + 1, indeg[ms[j] := indeg[ms[j]] - 1], SortIds(ready + [ms[j]]))
    ensures indeg[ms[j]] != 1 ==>
              InnerOk(deps, done, n, ms, j + 1, indeg[ms[j] := indeg[ms[j]] - 1], ready)
  {
    var m := ms[j];
    StillUnmet(deps, done, n, ms, j);
    assert ms[..j + 1] == ms[..j] + [m];
    var indeg' := indeg[m := indeg[m] - 1];
    assert Partly(deps, done, ms[..j], indeg, m);
    forall x | x in deps
      ensures Partly(deps, done, ms[..j + 1], indeg', x)
    {
      assert Partly(deps, done, ms[..j], indeg, x);
    }
    ReadyAfter(done + {n}, indeg, ready, m);
  }

  lemma ReadyAfter(done: set<Id>, indeg: map<Id, int>, ready: seq<Id>, m: Id)
    requires ReadyOk(done, indeg, ready) && m in indeg && m !in done && indeg[m] >= 1
    ensures indeg[m] == 1 ==> ReadyOk(done, indeg[m := indeg[m] - 1], SortIds(ready + [m]))
    ensures indeg[m] != 1 ==> ReadyOk(done, indeg[m := indeg[m] - 1], ready)
  {
    assert m !in ready;
    SortAppend(ready, m);
  }

  lemma SortAppend(ready: seq<Id>, m: Id)
    requires Distinct(ready) && m !in ready
    ensures Distinct(SortIds(ready + [m]))
    ensures forall x :: x in SortIds(ready + [m]) <==> x in ready || x == m
  {
    var r := SortIds(ready + [m]);
    SameElems(r, ready + [m]);
    assert forall x :: x in ready + [m] <==> x in Elems(ready + [m]);
    assert forall x :: x in r <==> x in Elems(r);
    DistinctByMultiset(ready + [m], r);
  }

  lemma DistinctByMultiset(a: seq<Id>, b: seq<Id>)
    requires Distinct(a) && multiset(a) == multiset(b)
    ensures Distinct(b)
  {
    forall i, j | 0 <= i < j < |b|
      ensures b[i] != b[j]
    {
      if b[i] == b[j] {
        CountedTwice(b, i, j);
        DistinctCounts(a, b[i]);
      }
    }
  }

  lemma CountedTwice(b: seq<Id>, i: nat, j: nat)
    requires i < j < |b| && b[i] == b[j]
    ensures multiset(b)[b[i]] >= 2
  {
    assert b == b[..i] + [b[i]] + b[i + 1..j] + [b[j]] + b[j + 1..];
  }

  lemma {:induction false} DistinctCounts(a: seq<Id>, x: Id)
    requires Distinct(a)
    ensures multiset(a)[x] <= 1
  {
    if a != [] {
      assert a == [a[0]] + a[1..];
      DistinctCounts(a[1..], x);
      if a[0] == x {
        assert x !in a[1..];
      }
    }
  }

  lemma InnerEnds(deps: map<Id, seq<Id>>, done: set<Id>, n: Id, ms: seq<Id>, indeg: map<Id, int>, ready: seq<Id>)
    requires InnerOk(deps, done, n, ms, |ms|, indeg, ready) && Emitting(deps, done, n, ms)
    ensures LoopOk(deps, done + {n}, indeg, ready)
  {
    assert ms[..|ms|] == ms;
    forall m | m in deps
      ensures Counts(deps, indeg, done + {n}, m) && (m in done + {n} ==> indeg[m] == 0)
    {
      assert Partly(deps, done, ms[..|ms|], indeg, m) && RowEntry(deps, ms, n, m);
      UnmetEmit(deps[m], deps.Keys, done, n);
    }
  }

  /** The sorted row of the next item is what the inner loop walks. */
  lemma NextRow(deps: map<Id, seq<Id>>, done: set<Id>, indeg: map<Id, int>, ready: seq<Id>,
                adj: map<Id, seq<Id>>, ms: seq<Id>)
    requires LoopOk(deps, done, indeg, ready) && ready != []
    requires RowsOk(deps, adj)
    requires ready[0] in adj && multiset(ms) == multiset(adj[ready[0]])
    ensures Emitting(deps, done, ready[0], ms)
  {
    var n := ready[0];
    assert n in ready && RowOk(deps, adj[n], n);
    forall m | m in deps ensures RowEntry(deps, ms, n, m) { assert RowEntry(deps, adj[n], n, m); }
    forall m | m in done + {n} ensures Unmet(deps[m], deps.Keys, done) == 0 { assert Counts(deps, indeg, done, m); }
    SameElems(ms, adj[ready[0]]);
    assert forall m :: m in ms ==> m in Elems(ms);
  }

  /** The inner loop: n has been emitted, so each entry of its row is met. */
  method Release(ghost deps: map<Id, seq<Id>>, ghost done: set<Id>, ghost n: Id, ms: seq<Id>,
                 indeg0: map<Id, int>, ready0: seq<Id>) returns (indeg: map<Id, int>, ready: seq<Id>)
    requires InnerOk(deps, done, n, ms, 0, indeg0, ready0) && Emitting(deps, done, n, ms)
    ensures LoopOk(deps, done + {n}, indeg, ready)
  {
    indeg, ready := indeg0, ready0;
    for j := 0 to |ms|
      invariant InnerOk(deps, done, n, ms, j, indeg, ready)
    {
      var m := ms[j];
      Decrement(deps, done, n, ms, j, indeg, ready);
      indeg := indeg[m := indeg[m] - 1];
      if indeg[m] == 0 {
        ready := SortIds(ready + [m]);
      }
    }
    InnerEnds(deps, done, n, ms, indeg, ready);
  }

  /** What one turn of the loop may rely on. */
  lemma TurnStarts(items: seq<Item>, done: set<Id>, indeg: map<Id, int>, ready: seq<Id>, adj: map<Id, seq<Id>>)
    requires RowsOk(DependsMap(items), adj)
    requires LoopOk(DependsMap(items), done, indeg, ready) && ready != []
    ensures ready[0] in adj && ready[0] in Ids(items) - done
    ensures Ready(GraphOf(items), done) != {} && ready[0] == Least(Ready(GraphOf(items), done))
    ensures Emitting(DependsMap(items), done, ready[0], SortIds(adj[ready[0]]))
    ensures InnerOk(DependsMap(items), done, ready[0], SortIds(adj[ready[0]]), 0, indeg, ready[1..])
  {
    ReadyIsReady(items, done, indeg, ready);
    assert ready[0] in ready && ready[0] in Ready(GraphOf(items), done);
    NextRow(DependsMap(items), done, indeg, ready, adj, SortIds(adj[ready[0]]));
    InnerStarts(DependsMap(items), done, indeg, ready, SortIds(adj[ready[0]]));
  }

  /** One turn: take the first ready item and release its dependents. */
  method Turn(ghost items: seq<Item>, ghost done: set<Id>, indeg0: map<Id, int>, ready0: seq<Id>, adj: map<Id, seq<Id>>)
    returns (n: Id, indeg: map<Id, int>, ready: seq<Id>)
    requires RowsOk(DependsMap(items), adj) && LoopOk(DependsMap(items), done, indeg0, ready0) && ready0 != []
    ensures n in Ids(items) - done && Ready(GraphOf(items), done) != {} && n == Least(Ready(GraphOf(items), done))
    ensures LoopOk(DependsMap(items), done + {n}, indeg, ready)
  {
    TurnStarts(items, done, indeg0, ready0, adj);
    n := ready0[0];
    indeg, ready := Release(DependsMap(items), done, n, SortIds(adj[n]), indeg0, ready0[1..]);
  }

  /** toposort: the emitted order and the set that could not be emitted. */
  method Toposort(items: seq<Item>) returns (order: seq<Id>, cyc: set<Id>)
    requires DistinctIds(items)
    ensures order == Order(GraphOf(items), {})
    ensures cyc == Leftover(GraphOf(items))
  {
    var indeg, adj, ready := Prepare(items);
    order := [];
    Begins(items);
    while ready != []
      invariant LoopOk(DependsMap(items), Elems(order), indeg, ready)
      invariant order + Order(GraphOf(items), Elems(order)) == Order(GraphOf(items), {})
      decreases Ids(items) - Elems(order)
    {
      var n;
      n, indeg, ready := Turn(items, Elems(order), indeg, ready, adj);
      Emit(GraphOf(items), order, n);
      order := order + [n];
    }
    Ends(items, order, indeg);
    cyc := Ids(items) - Elems(order);
  }

  /** The tables and the first ready list. */
  method Prepare(items: seq<Item>) returns (indeg: map<Id, int>, adj: map<Id, seq<Id>>, ready: seq<Id>)
    requires DistinctIds(items)
    ensures LoopOk(DependsMap(items), Elems([]), indeg, ready) && RowsOk(DependsMap(items), adj)
  {
    assert Elems([]) == {};
    indeg, adj := BuildTables(items);
    ready := InitialReady(items, indeg);
  }

  lemma Begins(items: seq<Item>)
    ensures [] + Order(GraphOf(items), Elems([])) == Order(GraphOf(items), {})
  {
    assert Elems([]) == {};
  }

  lemma Ends(items: seq<Item>, order: seq<Id>, indeg: map<Id, int>)
    requires LoopOk(DependsMap(items), Elems(order), indeg, [])
    requires order + Order(GraphOf(items), Elems(order)) == Order(GraphOf(items), {})
    ensures order == Order(GraphOf(items), {}) && GraphOf(items).Keys == Ids(items)
  {
    ReadyIsReady(items, Elems(order), indeg, []);
    assert order + [] == order;
  }

  lemma Emit(g: Graph, order: seq<Id>, n: Id)
    requires Ready(g, Elems(order)) != {} && n == Least(Ready(g, Elems(order)))
    ensures order + Order(g, Elems(order)) == (order + [n]) + Order(g, Elems(order + [n]))
    ensures Elems(order) + {n} == Elems(order + [n])
  {
    forall x ensures x in order + [n] <==> x in order || x == n { }
    assert Elems(order) + {n} == Elems(order + [n]);
    assert order + ([n] + Order(g, Elems(order + [n]))) == (order + [n]) + Order(g, Elems(order + [n]));
  }

  method InitialReady(items: seq<Item>, indeg: map<Id, int>) returns (ready: seq<Id>)
    requires DistinctIds(items) && indeg.Keys == Ids(items)
    ensures ReadyOk({}, indeg, ready)
  {
    var zero: seq<Id> := [];
    for k := 0 to |items|
      invariant Distinct(zero)
      invariant forall m :: m in zero <==> exists i :: 0 <= i < k && items[i].id == m && indeg[m] == 0
    {
      if indeg[items[k].id] == 0 {
        assert items[k].id !in zero;
        zero := zero + [items[k].id];
      }
    }
    ready := SortIds(zero);
    SameElems(zero, ready);
    DistinctByMultiset(zero, ready);
    assert forall m :: m in ready <==> m in Elems(ready);
    assert forall m :: m in zero <==> m in Elems(zero);
  }

  // ---- What the result means ----

  lemma GraphClosed(items: seq<Item>)
    ensures Closed(GraphOf(items))
  {
  }

  /** The order is valid, and the least of all valid orders of its items. */
  lemma OrderIsLeastValid(items: seq<Item>, p: seq<Id>)
    ensures Respects(GraphOf(items), {}, Order(GraphOf(items), {}))
    ensures Respects(GraphOf(items), {}, p) ==> Elems(p) <= Elems(Order(GraphOf(items), {}))
    ensures Respects(GraphOf(items), {}, p) && Elems(p) == Elems(Order(GraphOf(items), {}))
            ==> LexLE(Order(GraphOf(items), {}), p)
  {
    var g := GraphOf(items);
    OrderRespects(g, {});
    if Respects(g, {}, p) {
      forall x | x in Elems(p)
        ensures x in Order(g, {})
      {
        var k :| 0 <= k < |p| && p[k] == x;
        EmitsAllItCan(g, {}, p, k);
      }
      if Elems(p) == Elems(Order(g, {})) {
        LexLeast(g, {}, p);
      }
    }
  }

  /** The leftover set is the largest self-supporting set, and is empty exactly
      when the known-dependency graph is acyclic. */
  lemma LeftoverMeaning(items: seq<Item>)
    ensures SelfSupporting(GraphOf(items), Leftover(GraphOf(items)))
    ensures forall xs :: SelfSupporting(GraphOf(items), xs) ==> xs <= Leftover(GraphOf(items))
    ensures Leftover(GraphOf(items)) != {} <==> exists c :: Cycle(GraphOf(items), c)
  {
    GraphClosed(items);
    LeftoverSupportsItself(GraphOf(items));
    forall xs | SelfSupporting(GraphOf(items), xs)
      ensures xs <= Leftover(GraphOf(items))
    {
      LeftoverIsLargest(GraphOf(items), xs);
    }
    LeftoverIffCyclic(GraphOf(items));
  }
}
