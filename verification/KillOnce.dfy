/** The kill path: one sync.Once shared by both pumps and the reader, and the
    two-second timer it starts. */
module KillOnce {
  import opened Prelude
  import opened Frames
  import opened SharedLink
  import opened AgentRun

  /** What the counters can be at each stage of kill(). */
  ghost predicate KillOk(s: State) {
    var k := s.kill;
    match k.once
    case Fresh => k == Kill(Fresh, Off, 0, 0)
    case Committed(t) => k == Kill(Committed(t), Off, 0, 0) && Kills(s, t)
    case Spent =>
      || (k == Kill(Spent, Off, 0, 0) && s.finished)          // found `finished` closed
      || k == Kill(Spent, Armed, 1, 0)
      || k == Kill(Spent, Stopped, 1, 1)
      || (k == Kill(Spent, Stopped, 1, 0) && s.finished)      // the timer saw `finished`
  }

  /** A thread inside kill() leaves it only through a step of kill(). */
  lemma StaysInside(s: State, e: Event, t: Thread)
    requires Enabled(s, e) && !KillEvent(e) && Kills(s, t)
    ensures Kills(Step(s, e), t)
  {
    if PumpEvent(e) {
      PumpsStayInside(s, e, t);
    } else if WaiterEvent(e) {
      assert Step(s, e).outPump == s.outPump && Step(s, e).errPump == s.errPump && Step(s, e).reader == s.reader;
    } else {
      OthersStayInside(s, e, t);
    }
  }

  lemma OthersStayInside(s: State, e: Event, t: Thread)
    requires Enabled(s, e) && !OwnEvent(e) && Kills(s, t)
    ensures Kills(Step(s, e), t)
  {
    OthersLeave(s, e);
    if t.Reader? {
      assert Step(s, e).reader == s.reader;
    }
  }

  lemma PumpsStayInside(s: State, e: Event, t: Thread)
    requires Enabled(s, e) && PumpEvent(e) && Kills(s, t)
    ensures Kills(Step(s, e), t)
  {
  }

  lemma FinishedStays(s: State, e: Event)
    requires Enabled(s, e) && s.finished
    ensures Step(s, e).finished
  {
    if PumpEvent(e) {
      PumpsLeaveKill(s, e);
    } else if WaiterEvent(e) {
      WaiterLeavesKill(s, e);
    }
  }

  lemma KillUntouched(s: State, e: Event)
    requires Enabled(s, e) && !KillEvent(e) && !e.TimerKills? && !e.TimerQuits?
    ensures Step(s, e).kill == s.kill
  {
    if PumpEvent(e) {
      PumpsLeaveKill(s, e);
    } else if WaiterEvent(e) {
      WaiterLeavesKill(s, e);
    }
  }

  lemma PumpsLeaveKill(s: State, e: Event)
    requires Enabled(s, e) && PumpEvent(e)
    ensures Step(s, e).kill == s.kill && Step(s, e).finished == s.finished
  {
  }

  lemma WaiterLeavesKill(s: State, e: Event)
    requires Enabled(s, e) && WaiterEvent(e)
    ensures Step(s, e).kill == s.kill && (s.finished ==> Step(s, e).finished)
  {
  }

  lemma KillStep(s: State, e: Event)
    requires KillOk(s) && Enabled(s, e)
    ensures KillOk(Step(s, e))
  {
    if s.finished {
      FinishedStays(s, e);
    }
    if KillEvent(e) {
      KillEventOk(s, e);
    } else if !e.TimerKills? && !e.TimerQuits? {
      KillUntouched(s, e);
      if s.kill.once.Committed? {
        StaysInside(s, e, s.kill.once.caller);
      }
    }
  }

  lemma KillEventOk(s: State, e: Event)
    requires KillOk(s) && Enabled(s, e) && KillEvent(e)
    ensures KillOk(Step(s, e))
  {
  }

  lemma {:induction false} KillRun(s: State, es: seq<Event>, t: State)
    requires KillOk(s) && Reaches(s, es, t)
    ensures KillOk(t)
    decreases |es|
  {
    if es != [] {
      KillStep(s, es[0]);
      KillRun(Step(s, es[0]), es[1..], t);
    }
  }

  /** Over all callers and interleavings: at most one SIGINT, at most one
      SIGKILL, and no SIGKILL without the SIGINT before it. */
  lemma AtMostOneOfEach(start: State, es: seq<Event>, t: State)
    requires IsStart(start) && Reaches(start, es, t)
    ensures t.kill.sigkills <= t.kill.sigints <= 1
  {
    KillRun(start, es, t);
  }

  /** No caller has passed the check of `finished`, and nothing was sent. */
  ghost predicate Quiet(s: State) {
    s.finished && !s.kill.once.Committed? && s.kill.timer.Off? && s.kill.sigints == s.kill.sigkills == 0
  }

  lemma QuietStep(s: State, e: Event)
    requires Quiet(s) && Enabled(s, e)
    ensures Quiet(Step(s, e))
  {
    FinishedStays(s, e);
    if !KillEvent(e) {
      KillUntouched(s, e);
    }
  }

  lemma {:induction false} QuietRun(s: State, es: seq<Event>, t: State)
    requires Quiet(s) && Reaches(s, es, t)
    ensures Quiet(t)
    decreases |es|
  {
    if es != [] {
      QuietStep(s, es[0]);
      QuietRun(Step(s, es[0]), es[1..], t);
    }
  }

  /** After a clean run nothing is ever signalled: when `finished` closes before
      kill() was entered, closing the connection finds it closed. */
  lemma CleanRunSignalsNothing(start: State, es: seq<Event>, s: State, more: seq<Event>, t: State)
    requires IsStart(start) && Reaches(start, es, s) && s.finished && s.kill.once.Fresh?
    requires Reaches(s, more, t)
    ensures t.kill.sigints == 0 && t.kill.sigkills == 0
  {
    KillRun(start, es, s);
    QuietRun(s, more, t);
  }

  /** Exactly when a SIGINT can still follow the close of `finished`: a caller
      is between its check and its send. */
  lemma LateSignalIff(start: State, es: seq<Event>, s: State)
    requires IsStart(start) && Reaches(start, es, s) && s.finished
    ensures s.kill.once.Committed? <==>
              exists more, t :: Reaches(s, more, t) && t.kill.sigints > s.kill.sigints
  {
    KillRun(start, es, s);
    if s.kill.once.Committed? {
      var e := KillSignal(s.kill.once.caller);
      ReachesOne(s, e);
      assert Reaches(s, [e], Step(s, e)) && Step(s, e).kill.sigints > s.kill.sigints;
      assert exists more, t :: Reaches(s, more, t) && t.kill.sigints > s.kill.sigints;
    } else {
      forall more, t | Reaches(s, more, t)
        ensures t.kill.sigints <= s.kill.sigints
      {
        if s.kill.sigints == 0 {
          QuietRun(s, more, t);
        } else {
          KillRun(s, more, t);
        }
      }
    }
  }

  lemma Take(s0: State, es: seq<Event>, s: State, e: Event) returns (es': seq<Event>, s': State)
    requires Reaches(s0, es, s) && Enabled(s, e)
    ensures Reaches(s0, es', s') && s' == Step(s, e) && es' == es + [e]
  {
    ReachesSnoc(s0, es, s, e);
    es', s' := es + [e], Step(s, e);
  }

  /** One side of a silent process ends: its pipe closes and its pump returns. */
  lemma SilentSideEnds(s0: State, es: seq<Event>, s: State, side: Side) returns (es': seq<Event>, s': State)
    requires Reaches(s0, es, s) && GetPump(s, side).Reading? && GetPipe(s, side).buffered == []
    ensures Reaches(s0, es', s') && GetPump(s', side) == Finished(AtEof)
    ensures s' == SetPump(SetPipe(s, side, GetPipe(s', side)), side, Finished(AtEof))
  {
    es', s' := Take(s0, es, s, ProcCloses(side));
    es', s' := Take(s0, es', s', PumpRead(side, 0, true));
  }

  /** The process ends and the waiter reaps it. */
  lemma WaiterReaps(s0: State, es: seq<Event>, s: State, how: WaitResult) returns (es': seq<Event>, s': State)
    requires Reaches(s0, es, s) && s.main.Pumping? && s.proc.ended.None?
    requires s.outPump.Finished? && s.errPump.Finished?
    ensures Reaches(s0, es', s') && s'.main.Reaped? && s'.code == ExitStatus(how)
    ensures s'.kill == s.kill && s'.link == s.link && s'.sync == s.sync
  {
    es', s' := Take(s0, es, s, PumpsDone);
    es', s' := Take(s0, es', s', ProcEnds(how));
    es', s' := Take(s0, es', s', Reap);
  }

  /** The waiter then closes `finished`. */
  lemma WaiterEnds(s0: State, es: seq<Event>, s: State, how: WaitResult) returns (es': seq<Event>, s': State)
    requires Reaches(s0, es, s) && s.main.Pumping? && s.proc.ended.None?
    requires s.outPump.Finished? && s.errPump.Finished?
    ensures Reaches(s0, es', s') && s'.finished && s'.main.Exiting? && s'.code == ExitStatus(how)
    ensures s'.kill == s.kill && s'.link == s.link
  {
    es', s' := WaiterReaps(s0, es, s, how);
    es', s' := Take(s0, es', s', Finish(None));
  }

  /** The client hangs up; the reader enters kill() and passes the check. */
  lemma ReaderCommits(s: State) returns (es: seq<Event>, s': State)
    requires s.reader.Idle? && s.inbox == [] && s.kill.once.Fresh? && !s.finished
    ensures Reaches(s, es, s')
    ensures s' == s.(hungUp := true, reader := ReaderKills, kill := s.kill.(once := Committed(Reader)))
  {
    es, s' := Take(s, [], s, HangUp);
    es, s' := Take(s, es, s', ReadClient);
    es, s' := Take(s, es, s', KillCheck(Reader));
  }

  /** That window can be reached: the client hangs up as the process exits. */
  lemma LateSignalReachable() returns (es: seq<Event>, s: State)
    ensures Reaches(Started(false, 1, []), es, s)
    ensures s.finished && s.kill.once.Committed?
  {
    var s0 := Started(false, 1, []);
    es, s := ReaderCommits(s0);
    es, s := SilentSideEnds(s0, es, s, Out);
    es, s := SilentSideEnds(s0, es, s, Err);
    es, s := WaiterEnds(s0, es, s, Exited(0));
  }
}
