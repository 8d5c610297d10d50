/** Whether a lost client always ends the run: fair infinite runs, and the exact
    condition under which every one of them reaps the process group. */
module Reaping {
  import opened Prelude
  import opened Frames
  import opened SharedLink
  import opened AgentRun
  import opened Delivery
  import opened KillOnce
  import opened ReapRank
  import opened ReapSteps

  // ---- Fair runs ----

  /** An infinite run: states, and the step taken at each instant (None: nothing). */
  datatype Run = Run(states: nat -> State, moves: nat -> Option<Event>)

  ghost predicate Tick(r: Run, i: nat) {
    match r.moves(i)
    case None => r.states(i + 1) == r.states(i)
    case Some(e) => Enabled(r.states(i), e) && r.states(i + 1) == Step(r.states(i), e)
  }

  ghost predicate IsRun(r: Run) {
    forall i: nat :: Tick(r, i)
  }

  ghost predicate Moves(r: Run, t: Thread, i: nat) {
    r.moves(i).Some? && Actor(r.moves(i).value) == Some(t)
  }

  ghost predicate AlwaysAble(r: Run, t: Thread, i: nat) {
    forall j: nat :: j >= i ==> CanRun(r.states(j), t)
  }

  /** No goroutine that can run from some instant on is passed over for ever.
      Nothing is asked of the process or of the network. */
  ghost predicate Fair(r: Run) {
    forall t: Thread, i: nat :: AlwaysAble(r, t, i) ==> exists j: nat :: j >= i && Moves(r, t, j)
  }

  // ---- The condition is enough ----

  lemma HelperCanRun(s: State)
    requires Pending(s)
    ensures CanRun(s, Helper(s))
  {
    match Mode(s)
    case 0 => Witness(s, TimerKills);
    case 1 => Witness(s, KillSignal(s.kill.once.caller));
    case 2 => Witness(s, KillCheck(Helper(s)));
    case 3 => ReaderCanRun(s);
    case 4 => PumpCanRun(s, Out);
    case 5 => PumpCanRun(s, Err);
    case _ => EndCanRun(s);
  }

  lemma Witness(s: State, e: Event)
    requires Enabled(s, e) && Actor(e).Some?
    ensures CanRun(s, Actor(e).value)
  {
  }

  lemma ReaderCanRun(s: State)
    requires Pending(s) && Mode(s) == 3
    ensures CanRun(s, Reader)
  {
    if s.reader.Idle? {
      Witness(s, ReadClient);
    } else if s.proc.stdin.readEndClosed || !s.proc.stdin.writeEndOpen {
      Witness(s, StdinFails);
    } else {
      Witness(s, FeedStdin(1));
    }
  }

  lemma NoHolder(l: Link<Thread>)
    requires l.holder != Held(OutPump) && l.holder != Held(ErrPump) && l.holder != Held(Waiter)
    requires l.holder != Held(Reader) && l.holder != Held(Timer)
    ensures l.holder.Free?
  {
    match l.holder
    case Free =>
    case Held(t) => match t { case OutPump => case ErrPump => case Waiter => case Reader => case Timer => }
  }

  lemma PumpCanRun(s: State, side: Side)
    requires Pending(s) && Mode(s) == (if side.Out? then 4 else 5)
    ensures CanRun(s, PumpOf(Blocker(s, side)))
  {
    var b := Blocker(s, side);
    LinkHolds(CoreOf(s));
    RolesHold(CoreOf(s));
    SideHolds(CoreOf(s), b);
    match GetPump(s, b)
    case Reading =>
      var n := Min(|GetPipe(s, b).buffered|, PUMP_BUF);
      Witness(s, PumpRead(b, n, false));
    case Holding(_, _) =>
      assert !MainWrites(s.main) && s.link.holder != Held(Waiter);
      var other := if b.Out? then Err else Out;
      assert s.link.holder != Held(PumpOf(b)) && s.link.holder != Held(PumpOf(other));
      NoHolder(s.link);
      Witness(s, PumpFails(b));
    case Sending(_) =>
      if s.link.pending == [] { Witness(s, PumpWrote(b)); } else { Witness(s, PumpFails(b)); }
  }

  lemma EndCanRun(s: State)
    requires Pending(s) && Mode(s) == 6
    ensures CanRun(s, Helper(s))
  {
    var side := if !s.outPump.Finished? then Out else Err;
    RolesHold(CoreOf(s));
    SideHolds(CoreOf(s), side);
    if GetPump(s, side).Reading? {
      Witness(s, PumpRead(side, 0, true));
    } else if GetPump(s, side).Sending? {
      Witness(s, PumpWrote(side));
    } else if s.main.Pumping? {
      Witness(s, PumpsDone);
    } else if s.main.Waiting? {
      Witness(s, AgentRun.Reap);
    } else {
      Witness(s, Finish(None));
    }
  }

  ghost predicate Ok(s: State) {
    Live(s) && ClientGone(s)
  }

  lemma OkStep(s: State, e: Event)
    requires Ok(s) && Enabled(s, e)
    ensures Ok(Step(s, e))
  {
    LiveStep(s, e);
    GoneStep(s, e);
  }

  /** Instant j is just like instant i: still pending, same measure, same helper. */
  ghost predicate Like(r: Run, i: nat, j: nat) {
    && Pending(r.states(i)) && Pending(r.states(j))
    && Mode(r.states(j)) == Mode(r.states(i)) && Inner(r.states(j)) == Inner(r.states(i))
    && Helper(r.states(j)) == Helper(r.states(i))
  }

  /** Instant k is closer to the end than instant i. */
  ghost predicate Closer(r: Run, i: nat, k: nat) {
    && Ok(r.states(k))
    && (Ended(r.states(k)) || (BoundToReap(r.states(k)) && Less(r.states(k), r.states(i))))
  }

  /** The helper of instant i did not move up to instant j. */
  ghost predicate StoodStill(r: Run, i: nat, j: nat) {
    forall m :: i <= m < j ==> !Moves(r, Helper(r.states(i)), m)
  }

  /** By instant j, either the run got closer at k or nothing changed and the
      helper has not moved. */
  ghost predicate SoFar(r: Run, i: nat, j: nat, k: nat) {
    (k > i && Closer(r, i, k)) || (Like(r, i, j) && StoodStill(r, i, j))
  }

  lemma OneTick(r: Run, i: nat, j: nat)
    requires IsRun(r) && i <= j && SoFar(r, i, j, i)
    ensures SoFar(r, i, j + 1, j + 1)
  {
    assert Tick(r, j);
    if r.moves(j).Some? {
      OkStep(r.states(j), r.moves(j).value);
      StepProgress(r.states(j), r.moves(j).value);
    }
  }

  /** Whichever of the two holds up to j, one of them holds up to j + 1. */
  lemma FollowOn(r: Run, i: nat, j: nat, k: nat) returns (k': nat)
    requires IsRun(r) && i <= j && SoFar(r, i, j, k)
    ensures SoFar(r, i, j + 1, k')
  {
    if k > i && Closer(r, i, k) {
      k' := k;
    } else {
      k' := j + 1;
      OneTick(r, i, j);
    }
  }

  lemma Follow(r: Run, i: nat, j: nat) returns (k: nat)
    requires IsRun(r) && SoFar(r, i, i, i) && i <= j
    ensures SoFar(r, i, j, k)
  {
    k := i;
    for m := i to j
      invariant SoFar(r, i, m, k)
    {
      k := FollowOn(r, i, m, k);
    }
  }

  lemma GetsCloser(r: Run, i: nat) returns (k: nat)
    requires IsRun(r) && Fair(r) && Pending(r.states(i))
    ensures k > i && Closer(r, i, k)
  {
    var t := Helper(r.states(i));
    assert SoFar(r, i, i, i);
    if j: nat :| j >= i && Moves(r, t, j) {
      k := Follow(r, i, j + 1);
    } else if j: nat :| j >= i && !CanRun(r.states(j), t) {
      k := Follow(r, i, j);
      if !(k > i && Closer(r, i, k)) {
        HelperCanRun(r.states(j));
        assert false;
      }
    } else {
      assert AlwaysAble(r, t, i);
      assert false;
    }
  }

  /** Sufficiency: from a state bound to reap, every fair run reaps. */
  lemma {:induction false} FairRunsReap(r: Run, i: nat)
    requires IsRun(r) && Fair(r) && Ok(r.states(i))
    requires Ended(r.states(i)) || BoundToReap(r.states(i))
    ensures exists k: nat :: k >= i && Ended(r.states(k))
    decreases if Ended(r.states(i)) then 0 else 1, Mode(r.states(i)), Inner(r.states(i))
  {
    if Ended(r.states(i)) {
    } else {
      var k := GetsCloser(r, i);
      FairRunsReap(r, k);
    }
  }
}
