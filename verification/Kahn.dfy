/** Kahn's order with the smallest ready item first, as a function of a
    dependency graph, and what it means. */
module Kahn {

  /** Item ids, numbered in their sort order. */
  type Id = nat

  /** Each item and the items it depends on. */
  type Graph = map<Id, set<Id>>

  predicate Closed(g: Graph) {
    forall i :: i in g ==> g[i] <= g.Keys
  }

  function Elems(s: seq<Id>): set<Id> {
    set x | x in s
  }

  predicate Distinct(s: seq<Id>) {
    forall i, j :: 0 <= i < j < |s| ==> s[i] != s[j]
  }

  ghost function Least(s: set<Id>): (m: Id)
    requires s != {}
    ensures m in s && forall x :: x in s ==> m <= x
  {
    var x :| x in s;
    if s == {x} then x
    else
      assert s == {x} + (s - {x});
      var m := Least(s - {x});
      if m <= x then m else x
  }

  /** The items not yet emitted all of whose dependencies have been. */
  function Ready(g: Graph, done: set<Id>): set<Id> {
    set i | i in g && i !in done && g[i] <= done
  }

  ghost function Order(g: Graph, done: set<Id>): seq<Id>
    decreases g.Keys - done
  {
    if Ready(g, done) == {} then []
    else
      var n := Least(Ready(g, done));
      [n] + Order(g, done + {n})
  }

  /** The items never emitted. */
  ghost function Leftover(g: Graph): set<Id> {
    g.Keys - Elems(Order(g, {}))
  }

  // ---- Dependency-respecting orders ----

  /** o lists distinct items outside done, each after its dependencies. */
  ghost predicate Respects(g: Graph, done: set<Id>, o: seq<Id>) {
    && Distinct(o)
    && forall k :: 0 <= k < |o| ==> o[k] in g && o[k] !in done && g[o[k]] <= done + Elems(o[..k])
  }

  lemma RespectsTail(g: Graph, done: set<Id>, o: seq<Id>)
    requires o != [] && Respects(g, done, o)
    ensures o[0] in Ready(g, done) && Respects(g, done + {o[0]}, o[1..])
  {
    assert Elems(o[..0]) == {};
    forall k | 0 <= k < |o| - 1
      ensures o[1..][k] !in done + {o[0]} && g[o[1..][k]] <= done + {o[0]} + Elems(o[1..][..k])
    {
      assert o[1..][k] == o[k + 1] != o[0];
      assert o[..k + 1] == [o[0]] + o[1..][..k];
    }
  }

  lemma RespectsCons(g: Graph, done: set<Id>, n: Id, o: seq<Id>)
    requires n in Ready(g, done) && Respects(g, done + {n}, o)
    ensures Respects(g, done, [n] + o)
  {
    var p := [n] + o;
    forall k | 0 <= k < |p|
      ensures p[k] in g && p[k] !in done && g[p[k]] <= done + Elems(p[..k])
    {
      if k > 0 {
        assert p[k] == o[k - 1];
        assert p[..k] == [n] + o[..k - 1];
      }
    }
  }

  lemma {:induction false} OrderRespects(g: Graph, done: set<Id>)
    ensures Respects(g, done, Order(g, done))
    decreases g.Keys - done
  {
    if Ready(g, done) != {} {
      var n := Least(Ready(g, done));
      OrderRespects(g, done + {n});
      RespectsCons(g, done, n, Order(g, done + {n}));
    }
  }

  /** Nothing respects the dependencies beyond what is emitted. */
  lemma {:induction false} EmitsAllItCan(g: Graph, done: set<Id>, p: seq<Id>, k: nat)
    requires Respects(g, done, p) && k < |p|
    ensures p[k] in Order(g, done)
    decreases k
  {
    forall j | 0 <= j < k
      ensures p[j] in Order(g, done)
    {
      EmitsAllItCan(g, done, p, j);
    }
    OrderStops(g, done);
    var emitted := Elems(Order(g, done));
    forall x | x in Elems(p[..k])
      ensures x in emitted
    {
      var j :| 0 <= j < k && p[j] == x;
    }
    assert p[k] !in Ready(g, done + emitted);
  }

  /** When the loop stops, every item outside has a dependency outside. */
  lemma {:induction false} OrderStops(g: Graph, done: set<Id>)
    ensures Ready(g, done + Elems(Order(g, done))) == {}
    decreases g.Keys - done
  {
    if Ready(g, done) == {} {
      assert done + Elems(Order(g, done)) == done;
    } else {
      var n := Least(Ready(g, done));
      OrderStops(g, done + {n});
      assert done + Elems(Order(g, done)) == done + {n} + Elems(Order(g, done + {n}));
    }
  }

  /** a comes before b in lexicographic order, or equals it. */
  predicate LexLE(a: seq<Id>, b: seq<Id>) {
    if a == [] then true
    else if b == [] then false
    else a[0] < b[0] || (a[0] == b[0] && LexLE(a[1..], b[1..]))
  }

  /** The order is the lexicographically least of all dependency-respecting
      orders of the same items. */
  lemma {:induction false} LexLeast(g: Graph, done: set<Id>, p: seq<Id>)
    requires Respects(g, done, p) && Elems(p) == Elems(Order(g, done))
    ensures LexLE(Order(g, done), p)
    decreases g.Keys - done
  {
    var o := Order(g, done);
    if o != [] {
      assert o[0] in Elems(p);
      RespectsTail(g, done, p);
      if p[0] == o[0] {
        OrderRespects(g, done);
        RespectsTail(g, done, o);
        TailElems(o);
        TailElems(p);
        assert o[1..] == Order(g, done + {o[0]});
        LexLeast(g, done + {o[0]}, p[1..]);
      }
    }
  }

  lemma TailElems(s: seq<Id>)
    requires s != [] && Distinct(s)
    ensures Elems(s[1..]) == Elems(s) - {s[0]}
  {
    forall x | x in Elems(s) - {s[0]}
      ensures x in s[1..]
    {
      var i :| 0 <= i < |s| && s[i] == x;
      assert s[1..][i - 1] == x;
    }
  }

  // ---- The leftover set ----

  /** Every member depends on a member. */
  ghost predicate SelfSupporting(g: Graph, xs: set<Id>) {
    xs <= g.Keys && forall x :: x in xs ==> g[x] * xs != {}
  }

  lemma LeftoverSupportsItself(g: Graph)
    requires Closed(g)
    ensures SelfSupporting(g, Leftover(g))
  {
    OrderStops(g, {});
    var emitted := Elems(Order(g, {}));
    assert {} + emitted == emitted;
    forall x | x in Leftover(g)
      ensures g[x] * Leftover(g) != {}
    {
      assert x !in Ready(g, emitted);
      var d :| d in g[x] && d !in emitted;
      assert d in g[x] * Leftover(g);
    }
  }

  lemma {:induction false} NoneEmitted(g: Graph, done: set<Id>, xs: set<Id>)
    requires SelfSupporting(g, xs) && done * xs == {}
    ensures Elems(Order(g, done)) * xs == {}
    decreases g.Keys - done
  {
    if Ready(g, done) != {} {
      var n := Least(Ready(g, done));
      assert g[n] * xs <= done * xs;
      NoneEmitted(g, done + {n}, xs);
      assert Elems(Order(g, done)) == {n} + Elems(Order(g, done + {n}));
    }
  }

  /** The leftover is exactly the largest set whose members each depend on a
      member: the items on or downstream of a cycle. */
  lemma LeftoverIsLargest(g: Graph, xs: set<Id>)
    requires Closed(g) && SelfSupporting(g, xs)
    ensures xs <= Leftover(g)
  {
    NoneEmitted(g, {}, xs);
    forall x | x in xs
      ensures x in Leftover(g)
    {
      assert x !in Elems(Order(g, {})) * xs;
    }
  }

  // ---- Cycles ----

  /** Each item depends on the next, and the last on the first. */
  ghost predicate Cycle(g: Graph, c: seq<Id>) {
    && c != []
    && Chain(g, c)
    && c[0] in g[c[|c| - 1]]
  }

  ghost predicate Chain(g: Graph, c: seq<Id>) {
    && (forall i :: 0 <= i < |c| ==> c[i] in g)
    && forall i :: 0 <= i < |c| - 1 ==> c[i + 1] in g[c[i]]
  }

  lemma CycleSupportsItself(g: Graph, c: seq<Id>)
    requires Cycle(g, c)
    ensures SelfSupporting(g, Elems(c))
  {
    forall x | x in Elems(c)
      ensures g[x] * Elems(c) != {}
    {
      var i :| 0 <= i < |c| && c[i] == x;
      var d := if i == |c| - 1 then c[0] else c[i + 1];
      assert d in g[x] * Elems(c);
    }
  }

  lemma {:induction false} DistinctSize(s: seq<Id>)
    requires Distinct(s)
    ensures |Elems(s)| == |s|
  {
    if s == [] {
      assert Elems(s) == {};
    } else {
      TailElems(s);
      DistinctSize(s[1..]);
      assert Elems(s) == Elems(s[1..]) + {s[0]};
    }
  }

  lemma SubsetSize(a: set<Id>, b: set<Id>)
    requires a <= b
    ensures |a| <= |b|
  {
    assert b == a + (b - a);
  }

  lemma ChainSnoc(g: Graph, w: seq<Id>, d: Id)
    requires w != [] && Chain(g, w) && d in g && d in g[w[|w| - 1]] && Distinct(w) && d !in w
    ensures Chain(g, w + [d]) && Distinct(w + [d]) && Elems(w + [d]) == Elems(w) + {d}
  {
  }

  /** Walking from member to member of a self-supporting set must come back. */
  lemma {:induction false} WalkFindsCycle(g: Graph, xs: set<Id>, w: seq<Id>) returns (c: seq<Id>)
    requires SelfSupporting(g, xs) && w != [] && Elems(w) <= xs && Chain(g, w) && Distinct(w)
    ensures Cycle(g, c)
    decreases |xs| - |w|
  {
    var last := w[|w| - 1];
    assert last in Elems(w);
    var d :| d in g[last] * xs;
    if j :| 0 <= j < |w| && w[j] == d {
      c := w[j..];
    } else {
      var v := w + [d];
      ChainSnoc(g, w, d);
      DistinctSize(v);
      SubsetSize(Elems(v), xs);
      c := WalkFindsCycle(g, xs, v);
    }
  }

  /** Something is left over if and only if the graph has a cycle. */
  lemma LeftoverIffCyclic(g: Graph)
    requires Closed(g)
    ensures Leftover(g) != {} <==> exists c :: Cycle(g, c)
  {
    if Leftover(g) != {} {
      var x :| x in Leftover(g);
      LeftoverSupportsItself(g);
      var c := WalkFindsCycle(g, Leftover(g), [x]);
    }
    forall c | Cycle(g, c)
      ensures Leftover(g) != {}
    {
      CycleSupportsItself(g, c);
      LeftoverIsLargest(g, Elems(c));
      assert c[0] in Elems(c);
    }
  }
}
