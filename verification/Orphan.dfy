/** The other half of the reaping condition: without it, the agent can come to
    rest with the process alive, and a fair run stays there for ever. */
module Orphan {
  import opened Prelude
  import opened Frames
  import opened SharedLink
  import opened AgentRun
  import opened Delivery
  import opened KillOnce
  import opened ReapRank
  import opened ReapSteps
  import opened Reaping
  import ClientSend

  ghost predicate Doomed(s: State) {
    Ok(s) && !Ended(s) && !BoundToReap(s)
  }

  /** No goroutine has a step to take. */
  ghost predicate Stuck(s: State) {
    forall t: Thread :: !CanRun(s, t)
  }

  predicate PumpAtRest(s: State, side: Side) {
    GetPump(s, side).Finished? || (GetPump(s, side).Reading? && !GetPipe(s, side).closed)
  }

  /** What a step of the path to rest must respect. */
  lemma PathStep(s0: State, es: seq<Event>, s: State, e: Event) returns (es': seq<Event>, t: State)
    requires Reaches(s0, es, s) && Doomed(s) && Enabled(s, e)
    requires !Ended(Step(s, e)) && !BoundToReap(Step(s, e))
    ensures Reaches(s0, es', t) && Doomed(t) && t == Step(s, e)
  {
    OkStep(s, e);
    es', t := Take(s0, es, s, e);
  }

  lemma WroteStaysDoomed(s: State, side: Side)
    requires Doomed(s) && GetPump(s, side).Sending?
    ensures Enabled(s, PumpWrote(side))
    ensures !Ended(Step(s, PumpWrote(side))) && !BoundToReap(Step(s, PumpWrote(side)))
  {
    SideHolds(CoreOf(s), side);
  }

  lemma EofStaysDoomed(s: State, side: Side)
    requires Doomed(s) && GetPump(s, side).Reading? && GetPipe(s, side).closed
    ensures Enabled(s, PumpRead(side, 0, true))
    ensures !Ended(Step(s, PumpRead(side, 0, true))) && !BoundToReap(Step(s, PumpRead(side, 0, true)))
  {
  }

  /** A frame being sent has been accepted in full. */
  lemma SendRests(s0: State, es: seq<Event>, s: State, side: Side) returns (es': seq<Event>, t: State)
    requires Reaches(s0, es, s) && Doomed(s)
    ensures Reaches(s0, es', t) && Doomed(t) && !GetPump(t, side).Sending?
    ensures t == SetPump(s, side, GetPump(t, side)).(link := t.link)
  {
    es', t := es, s;
    if GetPump(t, side).Sending? {
      WroteStaysDoomed(t, side);
      es', t := PathStep(s0, es', t, PumpWrote(side));
    }
  }

  lemma PumpRests(s0: State, es: seq<Event>, s: State, side: Side) returns (es': seq<Event>, t: State)
    requires Reaches(s0, es, s) && Doomed(s)
    ensures Reaches(s0, es', t) && Doomed(t) && PumpAtRest(t, side)
    ensures t == SetPipe(SetPump(s, side, GetPump(t, side)), side, GetPipe(t, side)).(link := t.link)
  {
    es', t := SendRests(s0, es, s, side);
    if GetPump(t, side).Reading? && GetPipe(t, side).closed {
      EofStaysDoomed(t, side);
      es', t := PathStep(s0, es', t, PumpRead(side, 0, true));
    }
  }

  lemma WaiterRests(s0: State, es: seq<Event>, s: State) returns (es': seq<Event>, t: State)
    requires Reaches(s0, es, s) && Doomed(s) && PumpAtRest(s, Out) && PumpAtRest(s, Err)
    ensures Reaches(s0, es', t) && Doomed(t) && PumpAtRest(t, Out) && PumpAtRest(t, Err)
    ensures t == s.(main := t.main)
    ensures (t.main.Pumping? && !(t.outPump.Finished? && t.errPump.Finished?))
         || (t.main.Waiting? && t.proc.ended.None?)
  {
    es', t := es, s;
    RolesHold(CoreOf(s));
    SideHolds(CoreOf(s), Out);
    SideHolds(CoreOf(s), Err);
    if s.main.Pumping? && s.outPump.Finished? && s.errPump.Finished? {
      es', t := PathStep(s0, es', t, PumpsDone);
    }
  }

  /** The reader fills the pipe and then waits for room that never comes. */
  lemma {:induction false} ReaderRests(s0: State, es: seq<Event>, s: State) returns (es': seq<Event>, t: State)
    requires Reaches(s0, es, s) && Doomed(s)
    ensures Reaches(s0, es', t) && Doomed(t)
    ensures t.reader.Feeding? && Room(t.proc.stdin) == 0
    ensures t.outPump == s.outPump && t.errPump == s.errPump && t.main == s.main && t.link == s.link
    ensures t.proc == s.proc.(stdin := t.proc.stdin)
    decreases ReaderWork(s)
  {
    es', t := es, s;
    if s.reader.Idle? {
      NeedsFrame(s);
      ReadOneWork(s);
      ReadOneKeeps(s);
      ReadOneStarves(s);
      es', t := PathStep(s0, es, s, ReadClient);
      es', t := ReaderRests(s0, es', t);
    } else if Room(s.proc.stdin) > 0 {
      var k := Min(|s.reader.data|, Room(s.proc.stdin));
      es', t := PathStep(s0, es, s, FeedStdin(k));
      es', t := ReaderRests(s0, es', t);
    }
  }

  lemma NeedsFrame(s: State)
    requires Doomed(s) && s.reader.Idle?
    ensures ReadFrame(s.inbox).Got?
  {
  }

  lemma ReadOneStarves(s: State)
    requires Doomed(s) && s.reader.Idle? && ReadFrame(s.inbox).Got?
    ensures !BoundToReap(ReadOne(s)) && !Ended(ReadOne(s))
  {
    ReadOneKeeps(s);
    assert !ReaderFree(ReadOne(s));
  }

  lemma AtRestIsStuck(s: State)
    requires Doomed(s) && PumpAtRest(s, Out) && PumpAtRest(s, Err)
    requires (s.main.Pumping? && !(s.outPump.Finished? && s.errPump.Finished?))
          || (s.main.Waiting? && s.proc.ended.None?)
    requires s.reader.Feeding? && Room(s.proc.stdin) == 0
    ensures Stuck(s)
  {
    forall e: Event | Actor(e).Some?
      ensures !Enabled(s, e)
    {
    }
  }

  /** From any state not bound to reap, the goroutines can run to a standstill
      that leaves the process group alive. */
  lemma ComesToRest(s: State) returns (es: seq<Event>, t: State)
    requires Doomed(s)
    ensures Reaches(s, es, t) && Doomed(t) && Stuck(t)
  {
    es, t := PumpRests(s, [], s, Out);
    es, t := PumpRests(s, es, t, Err);
    es, t := WaiterRests(s, es, t);
    es, t := ReaderRests(s, es, t);
    AtRestIsStuck(t);
  }

  // ---- A fair run that stays there ----

  ghost function At(s: State, es: seq<Event>, i: nat): State
    decreases |es|
  {
    if i == 0 || es == [] || !Enabled(s, es[0]) then s else At(Step(s, es[0]), es[1..], i - 1)
  }

  lemma {:induction false} AtSteps(s: State, es: seq<Event>, t: State, i: nat)
    requires Reaches(s, es, t) && i <= |es|
    ensures i < |es| ==> Enabled(At(s, es, i), es[i]) && At(s, es, i + 1) == Step(At(s, es, i), es[i])
    ensures i == |es| ==> At(s, es, i) == t
    decreases |es|
  {
    if es != [] && i > 0 {
      AtSteps(Step(s, es[0]), es[1..], t, i - 1);
    }
  }

  /** Take the steps es, then rest. */
  ghost function RestingRun(s: State, es: seq<Event>): Run {
    Run((i: nat) => At(s, es, if i <= |es| then i else |es|), (i: nat) => if i < |es| then Some(es[i]) else None)
  }

  lemma EndedStays(s: State, e: Event)
    requires Enabled(s, e) && Ended(s)
    ensures Ended(Step(s, e))
  {
    if s.finished {
      FinishedStays(s, e);
    }
  }

  lemma RestingRunIsFair(s: State, es: seq<Event>, t: State)
    requires Reaches(s, es, t) && Stuck(t)
    ensures IsRun(RestingRun(s, es)) && Fair(RestingRun(s, es))
  {
    var r := RestingRun(s, es);
    forall i: nat
      ensures Tick(r, i)
    {
      if i < |es| {
        AtSteps(s, es, t, i);
      }
    }
    AtSteps(s, es, t, |es|);
    forall th: Thread, i: nat
      ensures !AlwaysAble(r, th, i)
    {
      var j: nat := if i < |es| then |es| else i;
      assert r.states(j) == t && !CanRun(t, th);
    }
  }

  lemma {:induction false} NeverEnds(s: State, es: seq<Event>, t: State, i: nat)
    requires Reaches(s, es, t) && !Ended(t) && i <= |es|
    ensures !Ended(At(s, es, i))
    decreases |es| - i
  {
    AtSteps(s, es, t, i);
    if i < |es| {
      NeverEnds(s, es, t, i + 1);
      if Ended(At(s, es, i)) {
        EndedStays(At(s, es, i), es[i]);
      }
    }
  }

  // ---- Main result ----

  ghost predicate ReapsFrom(s: State, r: Run) {
    IsRun(r) && Fair(r) && r.states(0) == s ==> exists k: nat :: Ended(r.states(k))
  }

  /** In any state of a started run whose client is gone: every fair run either
      ends or kills the whole group if and only if the state is bound to reap. */
  lemma ReapsIff(s: State)
    requires Ok(s)
    ensures (forall r: Run :: ReapsFrom(s, r)) <==> Ended(s) || BoundToReap(s)
  {
    if Ended(s) || BoundToReap(s) {
      forall r: Run | IsRun(r) && Fair(r) && r.states(0) == s
        ensures exists k: nat :: Ended(r.states(k))
      {
        FairRunsReap(r, 0);
      }
    } else {
      var es, t := ComesToRest(s);
      var r := RestingRun(s, es);
      RestingRunIsFair(s, es, t);
      forall k: nat
        ensures !Ended(r.states(k))
      {
        NeverEnds(s, es, t, if k <= |es| then k else |es|);
      }
      assert r.states(0) == At(s, es, 0) == s;
      assert !ReapsFrom(s, r);
    }
  }

  // ---- Both sides of the condition are reached ----

  lemma {:induction false} LiveRun(s: State, es: seq<Event>, t: State)
    requires Live(s) && Reaches(s, es, t)
    ensures Live(t)
    decreases |es|
  {
    if es != [] {
      LiveStep(s, es[0]);
      LiveRun(Step(s, es[0]), es[1..], t);
    }
  }

  /** Every reachable state of a started run qualifies once the client is gone. */
  lemma ReachableReapsIff(sync: bool, cap: nat, inbox: bytes, es: seq<Event>, t: State)
    requires Reaches(Started(sync, cap, inbox), es, t) && ClientGone(t)
    ensures (forall r: Run :: ReapsFrom(t, r)) <==> Ended(t) || BoundToReap(t)
  {
    LiveRun(Started(sync, cap, inbox), es, t);
    ReapsIff(t);
  }

  /** n zero bytes as knit's client sends them: stdin frames of at most 32 KiB. */
  function Chunked(n: nat): seq<Frame> {
    if n == 0 then []
    else
      var k := Min(n, ClientSend.SEND_BUF);
      [Frame(STDIN, seq(k, i => 0))] + Chunked(n - k)
  }

  lemma {:induction false} ChunkedFits(n: nat)
    ensures AllFit(Chunked(n))
    ensures forall f :: f in Chunked(n) ==> |f.payload| <= ClientSend.SEND_BUF
  {
    if n > 0 {
      ChunkedFits(n - Min(n, ClientSend.SEND_BUF));
    }
  }

  lemma {:induction false} ChunkedNeeds(n: nat)
    requires AllFit(Chunked(n))
    ensures Need(EncodeAll(Chunked(n))) == n
  {
    if n > 0 {
      var k := Min(n, ClientSend.SEND_BUF);
      var fs := Chunked(n);
      assert fs[1..] == Chunked(n - k);
      ChunkedFits(n - k);
      ChunkedNeeds(n - k);
      ReadEncoded(fs[0], EncodeAll(fs[1..]));
    }
  }

  lemma LosesClient(s: State) returns (es: seq<Event>, t: State)
    ensures Reaches(s, es, t) && t == s.(hungUp := true, link := Sever(s.link))
  {
    es, t := Take(s, [], s, HangUp);
    es, t := Take(s, es, t, LinkDies);
  }

  /** The orphan is real, whatever the size of the pipe: one byte more of stdin
      than it holds, in frames the client sends, a process that reads nothing and
      writes nothing, and a lost connection. */
  lemma OrphanReachable(cap: nat) returns (es: seq<Event>, t: State)
    ensures AllFit(Chunked(cap + 1))
    ensures forall f :: f in Chunked(cap + 1) ==> |f.payload| <= ClientSend.SEND_BUF
    ensures Reaches(Started(false, cap, EncodeAll(Chunked(cap + 1))), es, t)
    ensures ClientGone(t) && !Ended(t) && !BoundToReap(t)
    ensures !forall r: Run :: ReapsFrom(t, r)
  {
    ChunkedFits(cap + 1);
    ChunkedNeeds(cap + 1);
    var inbox := EncodeAll(Chunked(cap + 1));
    es, t := LosesClient(Started(false, cap, inbox));
    ReachableReapsIff(false, cap, inbox, es, t);
  }
}
