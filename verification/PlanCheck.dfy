/** The dependency and cycle part of the roadmap validation. */
module PlanCheck {
  import opened Kahn
  import opened Roadmap

  datatype DepError =
    | DependsOnItself(id: Id)
    | DependsOnUnknown(id: Id, dep: Id)
    | CycleAmong(ids: set<Id>)

  /** by_id keeps the first item of each id. */
  function FirstOf(items: seq<Item>): (r: seq<Item>)
    ensures Ids(r) == Ids(items) && DistinctIds(r)
  {
    if items == [] then []
    else
      var init, last := items[..|items| - 1], items[|items| - 1];
      var r := FirstOf(init);
      IdsSnoc(init, last);
      assert items == init + [last];
      IdsSnoc(r, last);
      if last.id in Ids(r) then r
      else
        assert forall i :: 0 <= i < |r| ==> r[i] in r && r[i].id in Ids(r);
        r + [last]
  }

  lemma IdsSnoc(items: seq<Item>, it: Item)
    ensures Ids(items + [it]) == Ids(items) + {it.id}
  {
    forall i
      ensures i in Ids(items + [it]) <==> i in Ids(items) || i == it.id
    {
      if i in Ids(items) {
        var x :| x in items && x.id == i;
        assert x in items + [it];
      }
      if i == it.id {
        assert it in items + [it];
      }
    }
  }

  ghost predicate SelfDepends(items: seq<Item>, id: Id) {
    exists it :: it in items && it.id == id && id in it.depends
  }

  ghost predicate UnknownDepends(items: seq<Item>, id: Id, dep: Id) {
    exists it :: it in items && it.id == id && dep in it.depends && dep != id && dep !in Ids(items)
  }

  ghost predicate AllKnown(items: seq<Item>) {
    forall it, d :: it in items && d in it.depends ==> d in Ids(items)
  }

  /** The error an entry of item id gives rise to. */
  ghost predicate Reports(ids: set<Id>, id: Id, dep: Id, e: DepError) {
    (dep == id && e == DependsOnItself(id)) || (dep != id && dep !in ids && e == DependsOnUnknown(id, dep))
  }

  /** e is reported for one of the entries read so far. */
  ghost predicate ReportedBy(items: seq<Item>, k: nat, j: nat, e: DepError)
    requires k <= |items| && (k < |items| ==> j <= |items[k].depends|)
  {
    || (exists i, m :: 0 <= i < k && 0 <= m < |items[i].depends|
                       && Reports(Ids(items), items[i].id, items[i].depends[m], e))
    || (k < |items| && exists m :: 0 <= m < j && Reports(Ids(items), items[k].id, items[k].depends[m], e))
  }

  /** Exactly what is reported. */
  ghost predicate IsReport(items: seq<Item>, errors: seq<DepError>) {
    && (forall id :: DependsOnItself(id) in errors <==> SelfDepends(items, id))
    && (forall id, dep :: DependsOnUnknown(id, dep) in errors <==> UnknownDepends(items, id, dep))
    && (forall ids :: CycleAmong(ids) in errors <==>
          AllKnown(items) && ids != {} && ids == Leftover(GraphOf(FirstOf(items))))
  }

  /** No entry of the first k items is unknown. */
  ghost predicate KnownUpTo(items: seq<Item>, k: nat)
    requires k <= |items|
  {
    forall i, m :: 0 <= i < k && 0 <= m < |items[i].depends| ==>
      items[i].depends[m] == items[i].id || items[i].depends[m] in Ids(items)
  }

  method ValidateDeps(items: seq<Item>) returns (errors: seq<DepError>)
    ensures IsReport(items, errors)
  {
    errors := [];
    var byId := FirstOf(items);
    var known := true;
    for k := 0 to |items|
      invariant forall e :: e in errors <==> ReportedBy(items, k, 0, e)
      invariant known <==> KnownUpTo(items, k)
    {
      errors, known := CheckItem(items, k, byId, errors, known);
    }
    ReportedMeaning(items);
    assert forall e :: e in errors ==> !e.CycleAmong?;
    if known {
      var order, cyc := Toposort(byId);
      if cyc != {} {
        errors := errors + [CycleAmong(cyc)];
      }
    }
  }

  /** One item's dependencies. */
  method CheckItem(items: seq<Item>, k: nat, byId: seq<Item>, errors0: seq<DepError>, known0: bool)
    returns (errors: seq<DepError>, known: bool)
    requires k < |items| && Ids(byId) == Ids(items)
    requires forall e :: e in errors0 <==> ReportedBy(items, k, 0, e)
    requires known0 <==> KnownUpTo(items, k)
    ensures forall e :: e in errors <==> ReportedBy(items, k + 1, 0, e)
    ensures known <==> KnownUpTo(items, k + 1)
  {
    errors, known := errors0, known0;
    var it := items[k];
    for j := 0 to |it.depends|
      invariant forall e :: e in errors <==> ReportedBy(items, k, j, e)
      invariant known <==> KnownUpTo(items, k) && KnownIn(items, it, j)
    {
      var dep := it.depends[j];
      if dep == it.id {
        errors := errors + [DependsOnItself(it.id)];
      } else if dep !in Ids(byId) {
        errors := errors + [DependsOnUnknown(it.id, dep)];
        known := false;
      }
    }
  }

  /** None of the first j dependencies of an item is unknown. */
  ghost predicate KnownIn(items: seq<Item>, it: Item, j: nat)
    requires j <= |it.depends|
  {
    forall m :: 0 <= m < j ==> it.depends[m] == it.id || it.depends[m] in Ids(items)
  }

  lemma ReportedMeaning(items: seq<Item>)
    ensures forall id :: ReportedBy(items, |items|, 0, DependsOnItself(id)) <==> SelfDepends(items, id)
    ensures forall id, dep ::
              ReportedBy(items, |items|, 0, DependsOnUnknown(id, dep)) <==> UnknownDepends(items, id, dep)
    ensures AllKnown(items) <==> KnownUpTo(items, |items|)
  {
    forall i | 0 <= i < |items| ensures items[i] in items && items[i].id in Ids(items) { }
    forall id
      ensures ReportedBy(items, |items|, 0, DependsOnItself(id)) <==> SelfDepends(items, id)
    {
      if SelfDepends(items, id) {
        var it :| it in items && it.id == id && id in it.depends;
        var i :| 0 <= i < |items| && items[i] == it;
        var m :| 0 <= m < |it.depends| && it.depends[m] == id;
        assert Reports(Ids(items), items[i].id, items[i].depends[m], DependsOnItself(id));
      }
    }
    forall id, dep
      ensures ReportedBy(items, |items|, 0, DependsOnUnknown(id, dep)) <==> UnknownDepends(items, id, dep)
    {
      if UnknownDepends(items, id, dep) {
        var it :| it in items && it.id == id && dep in it.depends && dep != id && dep !in Ids(items);
        var i :| 0 <= i < |items| && items[i] == it;
        var m :| 0 <= m < |it.depends| && it.depends[m] == dep;
        assert Reports(Ids(items), items[i].id, items[i].depends[m], DependsOnUnknown(id, dep));
      }
    }
  }

  /** A sound plan: nothing depends on itself or on an unknown item, and the
      graph has no cycle. */
  ghost predicate Sound(items: seq<Item>) {
    && AllKnown(items)
    && (forall id :: !SelfDepends(items, id))
    && !exists c :: Cycle(GraphOf(FirstOf(items)), c)
  }

  lemma CleanMeansSound(items: seq<Item>)
    requires IsReport(items, [])
    ensures Sound(items)
  {
    var none: seq<DepError> := [];
    LeftoverMeaning(FirstOf(items));
    forall it, d | it in items && d in it.depends
      ensures d in Ids(items)
    {
      assert it.id in Ids(items);
      assert DependsOnUnknown(it.id, d) !in none;
    }
    forall id ensures !SelfDepends(items, id) { assert DependsOnItself(id) !in none; }
    assert CycleAmong(Leftover(GraphOf(FirstOf(items)))) !in none;
  }

  lemma ErrorMeansUnsound(items: seq<Item>, errors: seq<DepError>, e: DepError)
    requires IsReport(items, errors) && e in errors
    ensures !Sound(items)
  {
    LeftoverMeaning(FirstOf(items));
    match e
    case DependsOnItself(id) => assert SelfDepends(items, id);
    case DependsOnUnknown(id, dep) =>
      assert UnknownDepends(items, id, dep);
      assert !AllKnown(items);
    case CycleAmong(ids) =>
  }

  /** The report is clean if and only if the plan is sound. */
  lemma CleanReport(items: seq<Item>, errors: seq<DepError>)
    requires IsReport(items, errors)
    ensures errors == [] <==> Sound(items)
  {
    if errors == [] {
      CleanMeansSound(items);
    } else {
      ErrorMeansUnsound(items, errors, errors[0]);
    }
  }
}
