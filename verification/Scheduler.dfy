/** Placement: the constraint filter and the lowest-load pick with its tie-break. */
module Scheduler {
  import opened Prelude

  const TIE: real := 0.01
  const FASTEST: nat := 0x4000_0000

  /** The capacity fields of an info reply. */
  datatype Info = Info(cpus: int, load1: real, memFreeGB: real, arch: string)

  /** Load per core; a machine that reports no cores sorts last. */
  function Score(i: Info): real {
    if i.cpus == 0 then 1000000000.0 else i.load1 / (i.cpus as real)
  }

  /** Load per core as a law: the score times the cores is the load, and a machine
      without cores comes after every one loaded below a thousand million a core. */
  lemma ScoreIsLoadPerCore(i: Info, j: Info)
    ensures i.cpus != 0 ==> Score(i) * (i.cpus as real) == i.load1
    ensures i.cpus == 0 && j.cpus > 0 && j.load1 < 1000000000.0 * (j.cpus as real) ==> Score(j) < Score(i)
  {
    if i.cpus == 0 && j.cpus > 0 && j.load1 < 1000000000.0 * (j.cpus as real) {
      var n := j.cpus as real;
      assert Score(j) * n == j.load1;
      assert Score(j) >= 1000000000.0 ==> Score(j) * n >= 1000000000.0 * n;
    }
  }

  datatype Candidate = Candidate(name: string, addr: string, port: int, info: Info, local: bool, mbps: int)

  function LinkMbps(c: Candidate): int {
    if c.local then FASTEST else c.mbps
  }

  function S(c: Candidate): real {
    Score(c.info)
  }

  // ---- Pick ----

  /** c takes over from best. */
  predicate Beats(c: Candidate, best: Candidate) {
    || S(c) < S(best) - TIE
    || (S(c) <= S(best) + TIE && LinkMbps(c) > LinkMbps(best))
  }

  function PickFrom(cands: seq<Candidate>): Candidate
    requires cands != []
  {
    if |cands| == 1 then cands[0]
    else
      var best, c := PickFrom(cands[..|cands| - 1]), cands[|cands| - 1];
      if Beats(c, best) then c else best
  }

  method Pick(cands: seq<Candidate>) returns (r: Option<Candidate>)
    ensures r == if cands == [] then None else Some(PickFrom(cands))
  {
    if cands == [] {
      return None;
    }
    var best := cands[0];
    assert cands[..1] == [cands[0]];
    for k := 1 to |cands|
      invariant best == PickFrom(cands[..k])
    {
      var c := cands[k];
      assert cands[..k + 1][..k] == cands[..k];
      if S(c) < S(best) - TIE {
        best := c;
      } else if S(c) <= S(best) + TIE && LinkMbps(c) > LinkMbps(best) {
        best := c;
      }
    }
    assert cands[..|cands|] == cands;
    return Some(best);
  }

  lemma {:induction false} PickIsMember(cands: seq<Candidate>)
    requires cands != []
    ensures PickFrom(cands) in cands
    decreases |cands|
  {
    if |cands| > 1 {
      PickIsMember(cands[..|cands| - 1]);
    }
  }

  /** Each tie-break may lose TIE, so over n candidates the pick is within
      (n-1) * TIE of the lowest score. */
  lemma {:induction false} PickBound(cands: seq<Candidate>, i: nat)
    requires i < |cands|
    ensures S(PickFrom(cands)) <= S(cands[i]) + TIE * ((|cands| - 1) as real)
    decreases |cands|
  {
    var n := |cands|;
    if n > 1 {
      var init := cands[..n - 1];
      if i < n - 1 {
        PickBound(init, i);
      }
      assert TIE * ((n - 1) as real) == TIE * ((n - 2) as real) + TIE;
      assert TIE * ((n - 2) as real) >= 0.0;
    }
  }

  /** Among machines whose scores all tie, one over the fastest link is picked. */
  lemma {:induction false} TiedGoToFastest(cands: seq<Candidate>)
    requires cands != []
    requires forall i, j :: 0 <= i < |cands| && 0 <= j < |cands| ==> S(cands[i]) <= S(cands[j]) + 0.01
    ensures forall i :: 0 <= i < |cands| ==> LinkMbps(cands[i]) <= LinkMbps(PickFrom(cands))
    decreases |cands|
  {
    var n := |cands| - 1;
    if n > 0 {
      var init := cands[..n];
      TiedGoToFastest(init);
      PickIsMember(init);
      var k :| 0 <= k < n && cands[k] == PickFrom(init);
      forall i | 0 <= i <= n ensures LinkMbps(cands[i]) <= LinkMbps(PickFrom(cands)) {
        assert i < n ==> init[i] == cands[i];
      }
    }
  }

  // ---- The bound is tight ----

  /** Machine i of a chain in which each is one tie slower and one link faster. */
  function Drifter(i: nat): Candidate {
    Candidate("", "", 0, Info(1, TIE * (i as real), 0.0, ""), false, i)
  }

  function Chain(n: nat): seq<Candidate> {
    seq(n, (i: nat) => Drifter(i))
  }

  /** For every n some n candidates lose exactly (n-1) * TIE: "the lowest-scoring
      candidate" is not what the loop returns. */
  lemma {:induction false} PickDrifts(n: nat)
    requires n > 0
    ensures PickFrom(Chain(n)) == Drifter(n - 1)
    ensures S(PickFrom(Chain(n))) == S(Chain(n)[0]) + TIE * ((n - 1) as real)
  {
    if n > 1 {
      PickDrifts(n - 1);
      assert Chain(n)[..n - 1] == Chain(n - 1);
      assert TIE * ((n - 1) as real) == TIE * ((n - 2) as real) + TIE;
      assert Beats(Drifter(n - 1), Drifter(n - 2));
    }
  }

  // ---- Staying local ----

  /** The caller puts the only local candidate first. */
  predicate LocalFirst(cands: seq<Candidate>) {
    cands != [] && cands[0].local && forall i :: 1 <= i < |cands| ==> !cands[i].local
  }

  /** The local machine wins if and only if no other candidate beats it by more
      than a tie (or ties with it over a link declared faster than any real one). */
  lemma {:induction false} LocalWinsIff(cands: seq<Candidate>)
    requires LocalFirst(cands)
    ensures PickFrom(cands).local <==> forall i :: 1 <= i < |cands| ==> !Beats(cands[i], cands[0])
    ensures PickFrom(cands).local ==> PickFrom(cands) == cands[0]
    decreases |cands|
  {
    if |cands| > 1 {
      var init := cands[..|cands| - 1];
      LocalWinsIff(init);
      PickIsMember(init);
      assert forall i :: 1 <= i < |init| ==> init[i] == cands[i];
    }
  }

  /** With nominal speeds below 2^30 Mbps that is: no other score is below
      local - 0.01. */
  lemma LocalWinsIffNoneClearlyFreer(cands: seq<Candidate>)
    requires LocalFirst(cands) && forall i :: 1 <= i < |cands| ==> cands[i].mbps <= FASTEST
    ensures PickFrom(cands).local <==> forall i :: 1 <= i < |cands| ==> S(cands[i]) >= S(cands[0]) - TIE
  {
    LocalWinsIff(cands);
  }

  // ---- Filter ----

  predicate Meets(c: Candidate, memGB: real, arch: string) {
    && (arch != "" ==> c.info.arch == arch)
    && (memGB > 0.0 ==> c.info.memFreeGB >= memGB)
  }

  function Kept(cands: seq<Candidate>, memGB: real, arch: string): seq<Candidate> {
    if cands == [] then []
    else
      var init, last := cands[..|cands| - 1], cands[|cands| - 1];
      if Meets(last, memGB, arch) then Kept(init, memGB, arch) + [last] else Kept(init, memGB, arch)
  }

  /** Why nothing is left: no machine of the architecture, or too little memory
      everywhere, naming the machine with the most. */
  datatype Why = Fine | NoArch | NoMemory(name: string, most: real)

  method Filter(cands: seq<Candidate>, memGB: real, arch: string) returns (kept: seq<Candidate>, why: Why)
    ensures kept == Kept(cands, memGB, arch)
    ensures why.Fine? <==> kept != []
    ensures why.NoMemory? ==> MostFree(cands, arch, why.name, why.most) && why.name != ""
    ensures why.NoMemory? ==> memGB > 0.0 && why.most < memGB
    ensures why.NoArch? && (forall i :: 0 <= i < |cands| ==> cands[i].name != "" && cands[i].info.memFreeGB >= 0.0) ==>
              forall i :: 0 <= i < |cands| ==> arch != "" && cands[i].info.arch != arch
  {
    kept := [];
    var bestName, bestFree := "", -1.0;
    for k := 0 to |cands|
      invariant kept == Kept(cands[..k], memGB, arch)
      invariant bestName != "" ==> MostFree(cands[..k], arch, bestName, bestFree)
      invariant bestFree >= -1.0 && (bestFree == -1.0 ==> bestName == "")
      invariant bestFree == -1.0 || exists i :: 0 <= i < k && OfArch(cands[i], arch) && cands[i].name == bestName
      invariant forall i :: 0 <= i < k && OfArch(cands[i], arch) ==> cands[i].info.memFreeGB <= bestFree
      invariant kept == [] && bestFree > -1.0 ==> memGB > 0.0 && bestFree < memGB
    {
      var c := cands[k];
      assert cands[..k + 1][..k] == cands[..k] && cands[..k + 1][k] == c;
      if arch != "" && c.info.arch != arch {
        continue;
      }
      if c.info.memFreeGB > bestFree {
        bestName, bestFree := c.name, c.info.memFreeGB;
      }
      if memGB > 0.0 && c.info.memFreeGB < memGB {
        continue;
      }
      kept := kept + [c];
    }
    assert cands[..|cands|] == cands;
    why := if kept != [] then Fine else if bestName == "" then NoArch else NoMemory(bestName, bestFree);
  }

  predicate OfArch(c: Candidate, arch: string) {
    arch == "" || c.info.arch == arch
  }

  /** name has the most free memory among the machines of the architecture. */
  ghost predicate MostFree(cands: seq<Candidate>, arch: string, name: string, most: real) {
    && (exists i :: 0 <= i < |cands| && OfArch(cands[i], arch) && cands[i].name == name
                    && cands[i].info.memFreeGB == most)
    && forall i :: 0 <= i < |cands| && OfArch(cands[i], arch) ==> cands[i].info.memFreeGB <= most
  }

  /** out holds the machines at the positions at, in order: exactly those of the
      demanded architecture with at least the demanded memory free. */
  predicate Subsequence(cands: seq<Candidate>, memGB: real, arch: string, at: seq<nat>, out: seq<Candidate>) {
    && |at| == |out|
    && (forall k :: 0 <= k < |at| ==> at[k] < |cands| && out[k] == cands[at[k]])
    && (forall k, m :: 0 <= k < m < |at| ==> at[k] < at[m])
    && (forall k :: 0 <= k < |out| ==>
          (arch == "" || out[k].info.arch == arch) && (memGB <= 0.0 || out[k].info.memFreeGB >= memGB))
    && (forall i :: 0 <= i < |cands| && (arch == "" || cands[i].info.arch == arch)
                    && (memGB <= 0.0 || cands[i].info.memFreeGB >= memGB) ==>
          i in at)
  }

  lemma {:induction false} KeptIsSubsequence(cands: seq<Candidate>, memGB: real, arch: string) returns (at: seq<nat>)
    ensures Subsequence(cands, memGB, arch, at, Kept(cands, memGB, arch))
    decreases |cands|
  {
    if cands == [] {
      at := [];
    } else {
      var n := |cands| - 1;
      var out := Kept(cands[..n], memGB, arch);
      at := KeptIsSubsequence(cands[..n], memGB, arch);
      SubsequenceSnoc(cands, n, memGB, arch, at, out);
      if Meets(cands[n], memGB, arch) {
        at := at + [n];
      }
    }
  }

  lemma SubsequenceSnoc(cands: seq<Candidate>, n: nat, memGB: real, arch: string, at: seq<nat>, out: seq<Candidate>)
    requires n + 1 == |cands| && Subsequence(cands[..n], memGB, arch, at, out)
    ensures !Meets(cands[n], memGB, arch) ==> Subsequence(cands, memGB, arch, at, out)
    ensures Meets(cands[n], memGB, arch) ==> Subsequence(cands, memGB, arch, at + [n], out + [cands[n]])
  {
    var init := cands[..n];
    forall i | 0 <= i < n && Meets(cands[i], memGB, arch) ensures i in at {
      assert init[i] == cands[i];
    }
    if Meets(cands[n], memGB, arch) {
      var more := at + [n];
      assert more[|at|] == n;
      forall i | 0 <= i < n && Meets(cands[i], memGB, arch) ensures i in more {
        assert i in at;
      }
    }
  }

  /** Filter then Pick: the winner is one of the machines that meet the
      constraints, and close to the least loaded of them. */
  lemma WinnerMeetsConstraints(cands: seq<Candidate>, memGB: real, arch: string)
    requires Kept(cands, memGB, arch) != []
    ensures var w := PickFrom(Kept(cands, memGB, arch));
            && w in cands
            && (arch == "" || w.info.arch == arch) && (memGB <= 0.0 || w.info.memFreeGB >= memGB)
            && forall i :: 0 <= i < |cands|
                           && (arch == "" || cands[i].info.arch == arch)
                           && (memGB <= 0.0 || cands[i].info.memFreeGB >= memGB) ==>
                 S(w) <= S(cands[i]) + TIE * ((|Kept(cands, memGB, arch)| - 1) as real)
  {
    var kept := Kept(cands, memGB, arch);
    var at := KeptIsSubsequence(cands, memGB, arch);
    PickIsMember(kept);
    var k :| 0 <= k < |kept| && kept[k] == PickFrom(kept);
    assert at[k] in at;
    forall i | 0 <= i < |cands| && Meets(cands[i], memGB, arch)
      ensures S(PickFrom(kept)) <= S(cands[i]) + TIE * ((|kept| - 1) as real)
    {
      var m :| 0 <= m < |at| && at[m] == i;
      PickBound(kept, m);
    }
  }

  /** --on: the first candidate of that name. */
  method ByName(cands: seq<Candidate>, name: string) returns (r: Option<Candidate>)
    ensures r.None? <==> forall i :: 0 <= i < |cands| ==> cands[i].name != name
    ensures r.Some? ==> exists i :: 0 <= i < |cands| && cands[i] == r.value && r.value.name == name
                                    && forall j :: 0 <= j < i ==> cands[j].name != name
  {
    for k := 0 to |cands|
      invariant forall j :: 0 <= j < k ==> cands[j].name != name
    {
      if cands[k].name == name {
        return Some(cands[k]);
      }
    }
    return None;
  }
}
