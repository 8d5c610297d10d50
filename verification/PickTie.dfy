/** Exactly when tie-breaks can chain past one tie: the loop is meant to return a
    machine within a tie of the least loaded. */
module PickTie {
  import opened Prelude
  import opened Scheduler
  import opened PickLeast

  predicate WithinTie(b: seq<Candidate>)
    requires b != []
  {
    forall i :: 0 <= i < |b| ==> S(PickFrom(b)) <= S(b[i]) + TIE
  }

  /** Machine j is within a tie of the least score m, machine k is not but ties
      with j, and no machine after k is clearly freer than k. */
  predicate Chains(cands: seq<Candidate>, j: nat, k: nat, m: real) {
    && j < k < |cands|
    && S(cands[j]) <= m + TIE < S(cands[k]) <= S(cands[j]) + TIE
    && forall l :: k < l < |cands| ==> S(cands[l]) >= S(cands[k]) - TIE
  }

  /** b[j] was once the pick, and some machine listed has a faster link. */
  predicate Overtaken(b: seq<Candidate>, j: nat)
    requires j < |b|
  {
    PickFrom(b[..j + 1]) == b[j] && exists i :: 0 <= i < |b| && LinkMbps(b[i]) > LinkMbps(b[j])
  }

  /** The position at which the pick of the first n was taken. */
  lemma {:induction false} TakenAt(b: seq<Candidate>, n: nat) returns (i: nat)
    requires 0 < n <= |b|
    ensures i < n && PickFrom(b[..n]) == b[i] == PickFrom(b[..i + 1])
    decreases n
  {
    if n == 1 {
      i := 0;
    } else {
      PickStep(b, n - 1);
      if Beats(b[n - 1], PickFrom(b[..n - 1])) {
        i := n - 1;
      } else {
        i := TakenAt(b, n - 1);
      }
    }
  }

  /** m is the least score of the first n machines. */
  predicate LeastOf(b: seq<Candidate>, n: nat, m: real)
    requires n <= |b|
  {
    (forall i :: 0 <= i < n ==> m <= S(b[i])) && exists i :: 0 <= i < n && S(b[i]) == m
  }

  /** A chain among the first n; its end is no more loaded than score p. */
  predicate ChainsTo(b: seq<Candidate>, n: nat, j: nat, k: nat, m: real, p: real)
    requires n <= |b|
  {
    && j < k < n && S(b[j]) <= m + TIE < S(b[k]) <= S(b[j]) + TIE && S(b[k]) <= p
    && forall l :: k < l < n ==> S(b[l]) >= S(b[k]) - TIE
  }

  /** Some chain explains a pick of the first n beyond a tie of the least score m. */
  lemma {:induction false} ChainOf(b: seq<Candidate>, n: nat, m: real) returns (j: nat, k: nat)
    requires 0 < n <= |b| && S(PickFrom(b[..n])) > m + TIE && LeastOf(b, n, m)
    ensures ChainsTo(b, n, j, k, m, S(PickFrom(b[..n]))) && Overtaken(b, j)
    decreases n
  {
    NotTheFirst(b, n, m);
    if S(PickFrom(b[..n - 1])) > m + TIE {
      LeastBefore(b, n, m);
      j, k := ChainOf(b, n - 1, m);
      k := ChainGoesOn(b, n, j, k, m);
    } else {
      j, k := ChainStarts(b, n, m);
    }
  }

  lemma NotTheFirst(b: seq<Candidate>, n: nat, m: real)
    requires 0 < n <= |b| && S(PickFrom(b[..n])) > m + TIE && LeastOf(b, n, m)
    ensures n > 1
  {
    assert b[..1] == [b[0]];
  }

  /** The pick leaves the tie of m by a tie-break: only a faster link does that. */
  lemma ChainStarts(b: seq<Candidate>, n: nat, m: real) returns (j: nat, k: nat)
    requires 1 < n <= |b| && S(PickFrom(b[..n - 1])) <= m + TIE < S(PickFrom(b[..n]))
    ensures ChainsTo(b, n, j, k, m, S(PickFrom(b[..n]))) && Overtaken(b, j)
  {
    PickStep(b, n - 1);
    j := TakenAt(b, n - 1);
    k := n - 1;
    assert LinkMbps(b[k]) > LinkMbps(b[j]);
  }

  /** A least machine that came last would have been picked. */
  lemma LeastBefore(b: seq<Candidate>, n: nat, m: real)
    requires 1 < n <= |b| && LeastOf(b, n, m)
    requires S(PickFrom(b[..n])) > m + TIE && S(PickFrom(b[..n - 1])) > m + TIE
    ensures LeastOf(b, n - 1, m)
  {
    PickStep(b, n - 1);
    var i :| 0 <= i < n && S(b[i]) == m;
    assert i < n - 1;
  }

  /** One more machine: the chain stays, or ends with it when it is freer. */
  lemma ChainGoesOn(b: seq<Candidate>, n: nat, j: nat, k: nat, m: real) returns (k': nat)
    requires 1 < n <= |b| && ChainsTo(b, n - 1, j, k, m, S(PickFrom(b[..n - 1])))
    requires S(PickFrom(b[..n])) > m + TIE
    ensures ChainsTo(b, n, j, k', m, S(PickFrom(b[..n])))
  {
    PickStep(b, n - 1);
    k' := if Beats(b[n - 1], PickFrom(b[..n - 1])) && S(b[n - 1]) < S(b[k]) then n - 1 else k;
  }

  /** Links 1 for j, 2 for k and 0 for the rest. */
  function ChainLink(c: Candidate, i: nat, j: nat, k: nat): Candidate {
    c.(mbps := if i == j then 1 else if i == k then 2 else 0)
  }

  /** With those links the chain ends at k, if j gets its turn. */
  lemma ChainHolds(b: seq<Candidate>, j: nat, k: nat, m: real)
    requires Chains(b, j, k, m) && (forall i :: 0 <= i < |b| ==> m <= S(b[i]))
    requires forall i :: j < i < |b| ==> !b[i].local && b[i].mbps == (if i == k then 2 else 0)
    requires !b[j].local && b[j].mbps == 1 && PickFrom(b[..j + 1]) == b[j]
    ensures PickFrom(b) == b[k]
  {
    NearStays(b, j, k, m);
    PickStep(b, k);
    KeepsPick(b, k, |b|);
    assert b[..|b|] == b;
  }

  lemma {:induction false} KeepsPick(b: seq<Candidate>, k: nat, n: nat)
    requires k < n <= |b| && PickFrom(b[..k + 1]) == b[k]
    requires forall l :: k < l < n ==> S(b[l]) >= S(b[k]) - TIE && LinkMbps(b[l]) <= LinkMbps(b[k])
    ensures PickFrom(b[..n]) == b[k]
    decreases n
  {
    if n > k + 1 {
      KeepsPick(b, k, n - 1);
      PickStep(b, n - 1);
    }
  }

  // ---- Any list ----

  ghost predicate SomeChain(cands: seq<Candidate>) {
    exists i, j, k ::
      0 <= i < |cands| && 0 <= j < |cands| && 0 <= k && LeastAt(cands, i) && Chains(cands, j, k, S(cands[i]))
  }

  function ChainLinks(cands: seq<Candidate>, j: nat, k: nat): seq<Candidate> {
    seq(|cands|, i requires 0 <= i < |cands| => ChainLink(cands[i].(local := false), i, j, k))
  }

  lemma ChainBreaks(cands: seq<Candidate>, i: nat, j: nat, k: nat)
    requires i < |cands| && LeastAt(cands, i) && Chains(cands, j, k, S(cands[i]))
    ensures SameScores(ChainLinks(cands, j, k), cands) && !WithinTie(ChainLinks(cands, j, k))
  {
    var b, m := ChainLinks(cands, j, k), S(cands[i]);
    if j > 0 {
      var p := PickPosition(b[..j]);
      assert b[..j][p] == b[p] == ChainLink(cands[p].(local := false), p, j, k);
    }
    TakesOver(b, j, m);
    forall l | k < l < |b| ensures S(b[l]) >= S(b[k]) - TIE {
      assert S(cands[l]) >= S(cands[k]) - TIE;
    }
    ChainHolds(b, j, k, m);
    assert !(S(PickFrom(b)) <= S(b[i]) + TIE);
  }

  /** The loop stays within a tie of the lowest score for every choice of links
      if and only if no chain of two ties leads away from it. */
  lemma WithinTieIff(cands: seq<Candidate>)
    requires cands != []
    ensures (forall b :: SameScores(b, cands) ==> WithinTie(b)) <==> !SomeChain(cands)
  {
    if SomeChain(cands) {
      var i, j, k :|
        0 <= i < |cands| && 0 <= j < |cands| && 0 <= k && LeastAt(cands, i) && Chains(cands, j, k, S(cands[i]));
      ChainBreaks(cands, i, j, k);
      assert !WithinTie(ChainLinks(cands, j, k));
    } else {
      forall b | SameScores(b, cands) ensures WithinTie(b) {
        if !WithinTie(b) {
          var i, j, k := ChainFound(cands, b);
        }
      }
    }
  }

  lemma ChainFound(cands: seq<Candidate>, b: seq<Candidate>) returns (i: nat, j: nat, k: nat)
    requires b != [] && SameScores(b, cands) && !WithinTie(b)
    ensures i < |cands| && LeastAt(cands, i) && Chains(cands, j, k, S(cands[i]))
    ensures Overtaken(b, j)
  {
    i := SomeLeast(cands);
    var m := S(cands[i]);
    assert b[..|b|] == b && S(b[i]) == m;
    j, k := ChainOf(b, |b|, m);
    forall l | k < l < |cands| ensures S(cands[l]) >= S(cands[k]) - TIE {
      assert S(b[l]) >= S(b[k]) - TIE;
    }
  }

  // ---- The local machine first ----

  /** A chain that starts once the local machine has lost its place. */
  ghost predicate SomeRemoteChain(cands: seq<Candidate>)
    requires cands != []
  {
    exists i, j, k ::
      && 0 <= i < |cands| && 1 <= j < |cands| && 0 <= k && Freer(cands, j + 1)
      && LeastAt(cands, i) && Chains(cands, j, k, S(cands[i]))
  }

  function RemoteLinks(cands: seq<Candidate>, j: nat, k: nat): seq<Candidate> {
    seq(|cands|, i requires 0 <= i < |cands| => ChainLink(cands[i], i, j, k))
  }

  lemma RemoteChainBreaks(cands: seq<Candidate>, i: nat, j: nat, k: nat)
    requires LocalFirst(cands) && i < |cands| && 1 <= j < |cands| && Freer(cands, j + 1)
    requires LeastAt(cands, i) && Chains(cands, j, k, S(cands[i]))
    ensures Relinked(RemoteLinks(cands, j, k), cands) && !WithinTie(RemoteLinks(cands, j, k))
  {
    var b, m := RemoteLinks(cands, j, k), S(cands[i]);
    GetsItsTurn(cands, b, j, m);
    forall l | k < l < |b| ensures S(b[l]) >= S(b[k]) - TIE {
      assert S(cands[l]) >= S(cands[k]) - TIE;
    }
    ChainHolds(b, j, k, m);
    assert !(S(PickFrom(b)) <= S(b[i]) + TIE);
  }

  /** j takes over when it arrives: from a remote machine by its link, from the
      local one by being clearly freer. */
  lemma GetsItsTurn(cands: seq<Candidate>, b: seq<Candidate>, j: nat, m: real)
    requires LocalFirst(cands) && |b| == |cands| && 1 <= j < |b| && Freer(cands, j + 1)
    requires forall i :: 0 <= i < |b| ==>
               S(b[i]) == S(cands[i]) >= m && b[i].local == cands[i].local && b[i].mbps <= FASTEST
    requires S(b[j]) <= m + TIE && b[j].mbps == 1 && forall i :: 0 <= i < j ==> b[i].mbps == 0
    ensures PickFrom(b[..j + 1]) == b[j]
  {
    LocalUntilFreer(b, j);
    var p := PickPosition(b[..j]);
    assert b[..j][p] == b[p];
    if !Freer(b, j) {
      var f :| 1 <= f < j + 1 && S(cands[f]) < S(cands[0]) - TIE;
      assert S(b[f]) < S(b[0]) - TIE;
      assert f == j;
    }
    TakesOver(b, j, m);
  }

  /** With the local machine first: if and only if no such chain starts at or
      after the first machine clearly freer than the local one. */
  lemma WithinTieIffLocalFirst(cands: seq<Candidate>)
    requires LocalFirst(cands)
    ensures (forall b :: Relinked(b, cands) ==> WithinTie(b)) <==> !SomeRemoteChain(cands)
  {
    if SomeRemoteChain(cands) {
      var i, j, k :|
        && 0 <= i < |cands| && 1 <= j < |cands| && 0 <= k && Freer(cands, j + 1)
        && LeastAt(cands, i) && Chains(cands, j, k, S(cands[i]));
      RemoteChainBreaks(cands, i, j, k);
      assert !WithinTie(RemoteLinks(cands, j, k));
    } else {
      forall b | Relinked(b, cands) ensures WithinTie(b) {
        if !WithinTie(b) {
          var i, j, k := RemoteChainFound(cands, b);
        }
      }
    }
  }

  lemma RemoteChainFound(cands: seq<Candidate>, b: seq<Candidate>) returns (i: nat, j: nat, k: nat)
    requires LocalFirst(cands) && Relinked(b, cands) && !WithinTie(b)
    ensures i < |cands| && 1 <= j < |cands| && Freer(cands, j + 1)
    ensures LeastAt(cands, i) && Chains(cands, j, k, S(cands[i]))
  {
    i, j, k := ChainFound(cands, b);
    LocalUntilFreer(b, j + 1);
    assert !b[j].local;
    var f :| 1 <= f < j + 1 && S(b[f]) < S(b[0]) - TIE;
    assert S(cands[f]) < S(cands[0]) - TIE;
  }
}
