/** Exactly when the placement loop returns a lowest score, whatever the links. */
module PickLeast {
  import opened Prelude
  import opened Scheduler

  predicate PicksLeast(b: seq<Candidate>)
    requires b != []
  {
    forall i :: 0 <= i < |b| ==> S(PickFrom(b)) <= S(b[i])
  }

  predicate SameScores(b: seq<Candidate>, cands: seq<Candidate>) {
    |b| == |cands| && forall i :: 0 <= i < |b| ==> S(b[i]) == S(cands[i])
  }

  predicate LeastAt(cands: seq<Candidate>, i: nat)
    requires i < |cands|
  {
    forall j :: 0 <= j < |cands| ==> S(cands[i]) <= S(cands[j])
  }

  /** Machine j's score lies above m by at most a tie. */
  predicate Near(cands: seq<Candidate>, j: nat, m: real)
    requires j < |cands|
  {
    m < S(cands[j]) <= m + TIE
  }

  lemma {:induction false} SomeLeast(cands: seq<Candidate>) returns (i: nat)
    requires cands != []
    ensures i < |cands| && LeastAt(cands, i)
    decreases |cands|
  {
    var n := |cands| - 1;
    if n == 0 {
      i := 0;
    } else {
      i := SomeLeast(cands[..n]);
      assert forall j :: 0 <= j < n ==> cands[..n][j] == cands[j];
      if S(cands[n]) < S(cands[i]) {
        i := n;
      }
    }
  }

  lemma PickPosition(b: seq<Candidate>) returns (i: nat)
    requires b != []
    ensures i < |b| && b[i] == PickFrom(b)
  {
    PickIsMember(b);
    i :| 0 <= i < |b| && b[i] == PickFrom(b);
  }

  lemma PickStep(b: seq<Candidate>, n: nat)
    requires 0 < n < |b|
    ensures b[..n + 1][..n] == b[..n]
    ensures PickFrom(b[..n + 1]) == if Beats(b[n], PickFrom(b[..n])) then b[n] else PickFrom(b[..n])
  {
    assert b[..n + 1][..n] == b[..n];
  }

  // ---- Any list ----

  /** With a gap above m wider than a tie, a machine at m that came is kept. */
  lemma {:induction false} GapKeepsLeast(b: seq<Candidate>, n: nat, m: real)
    requires 0 < n <= |b|
    requires forall j :: 0 <= j < |b| ==> m <= S(b[j]) && !Near(b, j, m)
    ensures (exists i :: 0 <= i < n && S(b[i]) == m) ==> S(PickFrom(b[..n])) == m
  {
    if n > 1 {
      GapKeepsLeast(b, n - 1, m);
      PickStep(b, n - 1);
      var i := PickPosition(b[..n - 1]);
      assert b[..n - 1][i] == b[i] && !Near(b, i, m);
      assert !Near(b, n - 1, m);
    }
  }

  /** Only machine j has a link worth the name. */
  function Linked(c: Candidate, fast: bool): Candidate {
    c.(mbps := if fast then 1 else 0)
  }

  /** Once the pick is a machine within a tie of the least score, slower links
      cannot displace it. */
  lemma {:induction false} NearStays(b: seq<Candidate>, j: nat, n: nat, m: real)
    requires j < n <= |b| && S(b[j]) <= m + TIE && PickFrom(b[..j + 1]) == b[j]
    requires forall i :: 0 <= i < |b| ==> m <= S(b[i])
    requires forall i :: j < i < n ==> LinkMbps(b[i]) <= LinkMbps(b[j])
    ensures PickFrom(b[..n]) == b[j]
    decreases n
  {
    if n > j + 1 {
      NearStays(b, j, n - 1, m);
      PickStep(b, n - 1);
    }
  }

  /** b[j] takes over when it arrives, from a pick with a slower link. */
  lemma TakesOver(b: seq<Candidate>, j: nat, m: real)
    requires j < |b| && S(b[j]) <= m + TIE && forall i :: 0 <= i < |b| ==> m <= S(b[i])
    requires j > 0 ==> LinkMbps(PickFrom(b[..j])) < LinkMbps(b[j]) || S(b[j]) < S(PickFrom(b[..j])) - TIE
    ensures PickFrom(b[..j + 1]) == b[j]
  {
    if j > 0 {
      PickStep(b, j);
      var i := PickPosition(b[..j]);
      assert b[..j][i] == b[i];
    }
  }

  /** Only machine j on a link at all. */
  function OneLink(cands: seq<Candidate>, j: nat): seq<Candidate> {
    seq(|cands|, k requires 0 <= k < |cands| => Linked(cands[k].(local := false), k == j))
  }

  lemma NearWins(cands: seq<Candidate>, j: nat, m: real)
    requires j < |cands| && S(cands[j]) <= m + TIE && forall i :: 0 <= i < |cands| ==> m <= S(cands[i])
    ensures SameScores(OneLink(cands, j), cands) && S(PickFrom(OneLink(cands, j))) == S(cands[j])
  {
    var b := OneLink(cands, j);
    if j > 0 {
      var k := PickPosition(b[..j]);
      assert b[..j][k] == b[k] == Linked(cands[k].(local := false), false);
    }
    TakesOver(b, j, m);
    NearStays(b, j, |b|, m);
    assert b[..|b|] == b;
  }

  /** A score lies above the lowest by at most a tie. */
  predicate NearTie(cands: seq<Candidate>) {
    exists i, j :: 0 <= i < |cands| && 0 <= j < |cands| && LeastAt(cands, i) && Near(cands, j, S(cands[i]))
  }

  /** The loop returns a lowest score for every choice of links if and only if no
      score lies above the lowest by at most a tie. */
  lemma PicksLeastIff(cands: seq<Candidate>)
    requires cands != []
    ensures (forall b :: SameScores(b, cands) ==> PicksLeast(b)) <==> !NearTie(cands)
  {
    var least := SomeLeast(cands);
    var m := S(cands[least]);
    if NearTie(cands) {
      var i, j :| 0 <= i < |cands| && 0 <= j < |cands| && LeastAt(cands, i) && Near(cands, j, S(cands[i]));
      NearWins(cands, j, S(cands[i]));
      var b := OneLink(cands, j);
      assert SameScores(b, cands) && !(S(PickFrom(b)) <= S(b[i]));
    } else {
      forall b | SameScores(b, cands) ensures PicksLeast(b) {
        forall j | 0 <= j < |b| ensures !Near(b, j, m) {
          assert !Near(cands, j, m);
        }
        GapKeepsLeast(b, |b|, m);
        assert b[..|b|] == b && S(b[least]) == m;
      }
    }
  }

  // ---- The local machine first, as Run lists it ----

  predicate Relinked(b: seq<Candidate>, cands: seq<Candidate>) {
    && SameScores(b, cands)
    && (forall i :: 0 <= i < |b| ==> b[i].local == cands[i].local && b[i].mbps <= FASTEST)
  }

  /** Some remote machine among the first n is freer than the local one by more than a tie. */
  predicate Freer(cands: seq<Candidate>, n: nat)
    requires cands != [] && n <= |cands|
  {
    exists i :: 1 <= i < n && S(cands[i]) < S(cands[0]) - TIE
  }

  /** The local machine is the pick of the first n until one of those appears. */
  lemma LocalUntilFreer(b: seq<Candidate>, n: nat)
    requires LocalFirst(b) && 0 < n <= |b| && forall i :: 0 <= i < |b| ==> b[i].mbps <= FASTEST
    ensures PickFrom(b[..n]).local <==> !Freer(b, n)
    ensures PickFrom(b[..n]).local ==> PickFrom(b[..n]) == b[0]
  {
    var c := b[..n];
    LocalWinsIff(c);
    forall i | 1 <= i < n ensures Beats(c[i], c[0]) <==> S(b[i]) < S(b[0]) - TIE {
      assert c[i] == b[i];
    }
  }

  /** Near the least, and listed once the local machine has lost its place. */
  predicate Drifts(cands: seq<Candidate>, j: nat, m: real)
    requires j < |cands|
  {
    Near(cands, j, m) && (j == 0 || Freer(cands, j + 1))
  }

  lemma {:induction false} GapKeepsLeastAfterLocal(b: seq<Candidate>, n: nat, m: real)
    requires LocalFirst(b) && 0 < n <= |b| && forall i :: 0 <= i < |b| ==> b[i].mbps <= FASTEST
    requires forall j :: 0 <= j < |b| ==> m <= S(b[j]) && !Drifts(b, j, m)
    ensures (exists i :: 0 <= i < n && S(b[i]) == m) ==> S(PickFrom(b[..n])) == m
    ensures Freer(b, n) ==> S(PickFrom(b[..n])) == m || S(PickFrom(b[..n])) > m + TIE
  {
    LocalUntilFreer(b, n);
    assert !Drifts(b, 0, m);
    if n > 1 {
      GapKeepsLeastAfterLocal(b, n - 1, m);
      LocalUntilFreer(b, n - 1);
      OneMoreAfterLocal(b, n - 1, m);
    }
  }

  lemma OneMoreAfterLocal(b: seq<Candidate>, n: nat, m: real)
    requires LocalFirst(b) && 0 < n < |b| && m <= S(b[n]) && m <= S(b[0]) && !Drifts(b, n, m) && !Drifts(b, 0, m)
    requires PickFrom(b[..n]).local <==> !Freer(b, n)
    requires PickFrom(b[..n + 1]).local <==> !Freer(b, n + 1)
    requires PickFrom(b[..n]).local ==> PickFrom(b[..n]) == b[0]
    requires Freer(b, n) ==> S(PickFrom(b[..n])) == m || S(PickFrom(b[..n])) > m + TIE
    requires (exists i :: 0 <= i < n && S(b[i]) == m) ==> S(PickFrom(b[..n])) == m
    requires b[n].mbps <= FASTEST
    ensures (exists i :: 0 <= i < n + 1 && S(b[i]) == m) ==> S(PickFrom(b[..n + 1])) == m
    ensures Freer(b, n + 1) ==> S(PickFrom(b[..n + 1])) == m || S(PickFrom(b[..n + 1])) > m + TIE
  {
    PickStep(b, n);
  }

  predicate SomeDrift(cands: seq<Candidate>)
    requires cands != []
  {
    exists i, j :: 0 <= i < |cands| && 0 <= j < |cands| && LeastAt(cands, i) && Drifts(cands, j, S(cands[i]))
  }

  /** With the local machine first, the loop returns a lowest score for every
      choice of links if and only if neither the local machine, nor a machine
      listed at or after the first clearly freer one, is near the lowest score. */
  lemma PicksLeastIffLocalFirst(cands: seq<Candidate>)
    requires LocalFirst(cands)
    ensures (forall b :: Relinked(b, cands) ==> PicksLeast(b)) <==> !SomeDrift(cands)
  {
    if SomeDrift(cands) {
      var i, j :| 0 <= i < |cands| && 0 <= j < |cands| && LeastAt(cands, i) && Drifts(cands, j, S(cands[i]));
      var b := DriftWins(cands, i, j);
      assert Relinked(b, cands) && !PicksLeast(b);
    } else {
      forall b | Relinked(b, cands) ensures PicksLeast(b) {
        NoDriftLeast(cands, b);
      }
    }
  }

  lemma DriftWins(cands: seq<Candidate>, i: nat, j: nat) returns (b: seq<Candidate>)
    requires LocalFirst(cands) && i < |cands| && j < |cands| && LeastAt(cands, i) && Drifts(cands, j, S(cands[i]))
    ensures Relinked(b, cands) && !PicksLeast(b)
  {
    b := seq(|cands|, k requires 0 <= k < |cands| => Linked(cands[k], k == j));
    DriftTakesOver(cands, b, j, S(cands[i]));
    NearStays(b, j, |b|, S(cands[i]));
    assert b[..|b|] == b;
    assert !(S(PickFrom(b)) <= S(b[i]));
  }

  lemma NoDriftLeast(cands: seq<Candidate>, b: seq<Candidate>)
    requires LocalFirst(cands) && Relinked(b, cands) && !SomeDrift(cands)
    ensures PicksLeast(b)
  {
    var least := SomeLeast(cands);
    var m := S(cands[least]);
    forall j | 0 <= j < |b| ensures !Drifts(b, j, m) {
      assert !Drifts(cands, j, m);
      assert Freer(b, j + 1) ==> Freer(cands, j + 1);
    }
    GapKeepsLeastAfterLocal(b, |b|, m);
    assert b[..|b|] == b && S(b[least]) == m;
  }

  lemma DriftTakesOver(cands: seq<Candidate>, b: seq<Candidate>, j: nat, m: real)
    requires LocalFirst(cands) && j < |cands| == |b| && Drifts(cands, j, m)
    requires forall k :: 0 <= k < |b| ==> b[k] == Linked(cands[k], k == j)
    requires forall k :: 0 <= k < |b| ==> m <= S(b[k])
    ensures PickFrom(b[..j + 1]) == b[j]
  {
    if j > 0 {
      LocalUntilFreer(b, j);
      var k := PickPosition(b[..j]);
      assert b[..j][k] == b[k];
      if !Freer(b, j) {
        var f :| 1 <= f < j + 1 && S(cands[f]) < S(cands[0]) - TIE;
        assert S(b[f]) < S(b[0]) - TIE;
        assert f == j;
      }
    }
    TakesOver(b, j, m);
  }
}
