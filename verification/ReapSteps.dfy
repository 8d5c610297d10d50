/** Every step of a run whose client is gone makes progress towards reaping, and
    the helper always has a step to take. */
module ReapSteps {
  import opened Prelude
  import opened Frames
  import opened SharedLink
  import opened AgentRun
  import opened Delivery
  import opened KillOnce
  import opened ReapRank

  lemma ThreadsStep(s: State, e: Event)
    requires ThreadsOk(s) && RolesOk(CoreOf(s)) && KillOk(s) && Enabled(s, e)
    ensures ThreadsOk(Step(s, e))
  {
    if PumpEvent(e) {
      ThreadsPump(s, e);
    } else if KillEvent(e) {
      ThreadsKill(s, e);
    } else if WaiterEvent(e) {
      ThreadsWaiter(s, e);
    } else {
      ThreadsOther(s, e);
    }
  }

  /** One pump, its pipe and the link replaced. */
  function Turned(s: State, side: Side, p: Pipe, pump: Pump, link: Link<Thread>): State {
    SetPump(SetPipe(s, side, p), side, pump).(link := link)
  }

  function WrotePump(last: bool): Pump {
    if last then Finished(AtEof) else Reading
  }

  lemma ReadTurns(s: State, side: Side, n: nat, eof: bool)
    requires Enabled(s, PumpRead(side, n, eof))
    ensures var p := GetPipe(s, side);
            Step(s, PumpRead(side, n, eof)) == Turned(s, side, ReadPipe(p, n), ReadPump(p, n, eof), s.link)
  {
  }

  lemma BeginTurns(s: State, side: Side)
    requires Enabled(s, PumpBegins(side))
    ensures var t := Step(s, PumpBegins(side));
            t == Turned(s, side, GetPipe(s, side), Sending(GetPump(s, side).last), t.link)
  {
  }

  lemma WroteTurns(s: State, side: Side)
    requires Enabled(s, PumpWrote(side))
    ensures Step(s, PumpWrote(side))
         == Turned(s, side, GetPipe(s, side), WrotePump(GetPump(s, side).last), Unlock(s.link))
  {
  }

  lemma FailTurns(s: State, side: Side)
    requires Enabled(s, PumpFails(side))
    ensures var t := Step(s, PumpFails(side)); t == Turned(s, side, GetPipe(s, side), PumpKills, t.link)
  {
  }

  lemma ThreadsTurned(s: State, side: Side, p: Pipe, pump: Pump, link: Link<Thread>)
    requires ThreadsOk(s) && !GetPump(s, side).Finished? && pump != Finished(NeverRan) && pump != Finished(WriteFailed)
    ensures ThreadsOk(Turned(s, side, p, pump, link))
  {
  }

  lemma ThreadsPump(s: State, e: Event)
    requires ThreadsOk(s) && Enabled(s, e) && PumpEvent(e)
    ensures ThreadsOk(Step(s, e))
  {
    var link := Step(s, e).link;
    match e
    case PumpRead(side, n, eof) =>
      var p := GetPipe(s, side);
      ReadTurns(s, side, n, eof);
      ThreadsTurned(s, side, ReadPipe(p, n), ReadPump(p, n, eof), s.link);
    case PumpBegins(side) =>
      BeginTurns(s, side);
      ThreadsTurned(s, side, GetPipe(s, side), Sending(GetPump(s, side).last), link);
    case PumpWrote(side) =>
      WroteTurns(s, side);
      ThreadsTurned(s, side, GetPipe(s, side), WrotePump(GetPump(s, side).last), Unlock(s.link));
    case PumpFails(side) =>
      FailTurns(s, side);
      ThreadsTurned(s, side, GetPipe(s, side), PumpKills, link);
  }

  lemma ThreadsKillReturns(s: State, t: Thread)
    requires ThreadsOk(s) && Kills(s, t)
    ensures forall k: Kill :: k.once.Spent? ==> ThreadsOk(KillReturns(s.(kill := k), t))
  {
  }

  lemma ThreadsKill(s: State, e: Event)
    requires ThreadsOk(s) && Enabled(s, e) && KillEvent(e)
    ensures ThreadsOk(Step(s, e))
  {
    match e
    case KillCheck(t) => ThreadsKillReturns(s, t);
    case KillSignal(t) => ThreadsKillReturns(s, t);
    case KillPass(t) =>
      ThreadsKillReturns(s, t);
      assert s.(kill := s.kill) == s;
  }

  lemma ThreadsWaiter(s: State, e: Event)
    requires ThreadsOk(s) && RolesOk(CoreOf(s)) && Enabled(s, e) && WaiterEvent(e)
    ensures ThreadsOk(Step(s, e))
  {
    if e.MainBegins? || e.MainWrote? || e.MainFails? {
      ThreadsMain(s, e);
    }
  }

  lemma ThreadsMain(s: State, e: Event)
    requires ThreadsOk(s) && Enabled(s, e) && (e.MainBegins? || e.MainWrote? || e.MainFails?)
    ensures ThreadsOk(Step(s, e))
  {
    var t := Step(s, e);
    assert t.outPump == s.outPump && t.errPump == s.errPump && t.reader == s.reader && t.kill == s.kill;
    assert t.proc == s.proc && t.finished == s.finished;
  }

  lemma ThreadsOther(s: State, e: Event)
    requires ThreadsOk(s) && Enabled(s, e) && !PumpEvent(e) && !KillEvent(e) && !WaiterEvent(e)
    ensures ThreadsOk(Step(s, e))
  {
    if e.ReadClient? || e.FeedStdin? || e.StdinFails? {
      ThreadsReader(s, e);
    } else {
      ThreadsAside(s, e);
    }
  }

  /** The process, the connection and the timer. */
  lemma ThreadsAside(s: State, e: Event)
    requires ThreadsOk(s) && Enabled(s, e)
    requires Actor(e) == None || e.TimerKills? || e.TimerQuits?
    ensures ThreadsOk(Step(s, e))
  {
    OthersLeave(s, e);
    AsideProc(s, e);
  }

  /** What they make of the process, its stdin and the reader. */
  lemma AsideProc(s: State, e: Event)
    requires Enabled(s, e) && !OwnEvent(e)
    requires Actor(e) == None || e.TimerKills? || e.TimerQuits?
    ensures var t := Step(s, e);
            && t.reader == s.reader && (s.proc.ended.Some? ==> t.proc.ended.Some?)
            && t.proc.stdin.cap == s.proc.stdin.cap && t.proc.stdin.queued <= s.proc.stdin.queued
  {
    if e.ProcWrites? || e.ProcCloses? {
      PipeEventsLeave(s, e);
    }
  }

  lemma ThreadsReader(s: State, e: Event)
    requires ThreadsOk(s) && Enabled(s, e) && (e.ReadClient? || e.FeedStdin? || e.StdinFails?)
    ensures ThreadsOk(Step(s, e))
  {
    match e
    case ReadClient =>
      ReadOneKeeps(s);
    case FeedStdin(k) =>
    case StdinFails =>
  }

  lemma LiveStep(s: State, e: Event)
    requires Live(s) && Enabled(s, e)
    ensures Live(Step(s, e))
  {
    StepInv(s, e);
    KillStep(s, e);
    RolesHold(CoreOf(s));
    ThreadsStep(s, e);
  }

  lemma GoneStep(s: State, e: Event)
    requires ClientGone(s) && Enabled(s, e)
    ensures ClientGone(Step(s, e))
  {
    if PumpEvent(e) {
      GonePumps(s, e);
    } else if e.ReadClient? {
      ReadOneKeeps(s);
    }
  }

  lemma GonePumps(s: State, e: Event)
    requires ClientGone(s) && Enabled(s, e) && PumpEvent(e)
    ensures ClientGone(Step(s, e))
  {
  }

  // ---- Progress, by group of steps ----

  lemma KillProgress(s: State, e: Event)
    requires Pending(s) && Enabled(s, e) && KillEvent(e)
    ensures Progress(s, e, Step(s, e))
  {
  }

  lemma TimerProgress(s: State, e: Event)
    requires Pending(s) && Enabled(s, e) && (e.TimerKills? || e.TimerQuits?)
    ensures Progress(s, e, Step(s, e))
  {
  }

  /** A pump's step leaves kill(), the reader and the process's end alone. */
  ghost predicate PumpMoved(s: State, t: State, side: Side) {
    && Inside(t) == Inside(s) && ReaderFree(t) == ReaderFree(s) && ReaderWork(t) == ReaderWork(s)
    && t.kill == s.kill && t.reader == s.reader && Emptied(t) == Emptied(s)
    && t.main == s.main && t.finished == s.finished
    && (forall other: Side :: other != side ==>
          GetPump(t, other) == GetPump(s, other) && GetPipe(t, other) == GetPipe(s, other))
  }

  lemma TurnedMoves(s: State, side: Side, p: Pipe, pump: Pump, link: Link<Thread>)
    requires !GetPump(s, side).PumpKills? && !pump.PumpKills? && p.closed == GetPipe(s, side).closed
    ensures PumpMoved(s, Turned(s, side, p, pump, link), side)
  {
  }

  lemma PumpReadMoves(s: State, side: Side, n: nat, eof: bool)
    requires Enabled(s, PumpRead(side, n, eof))
    ensures PumpMoved(s, Step(s, PumpRead(side, n, eof)), side)
  {
    var p := GetPipe(s, side);
    TurnedMoves(s, side, ReadPipe(p, n), ReadPump(p, n, eof), s.link);
    ReadTurns(s, side, n, eof);
  }

  /** While kill() is under way or the reader is free, pumps do not matter. */
  lemma LowMode(s: State, t: State, side: Side, e: Event)
    requires Pending(s) && PumpMoved(s, t, side) && Mode(s) <= 3
    requires Actor(e) == Some(PumpOf(side)) && !GetPump(s, side).PumpKills? && !GetPump(t, side).PumpKills?
    ensures Progress(s, e, t)
  {
  }

  lemma PumpReadProgress(s: State, side: Side, n: nat, eof: bool)
    requires Pending(s) && Enabled(s, PumpRead(side, n, eof))
    ensures Progress(s, PumpRead(side, n, eof), Step(s, PumpRead(side, n, eof)))
  {
    PumpReadMoves(s, side, n, eof);
    if Mode(s) <= 3 {
      LowMode(s, Step(s, PumpRead(side, n, eof)), side, PumpRead(side, n, eof));
    } else {
      PumpReadHigh(s, side, n, eof);
    }
  }

  lemma PumpReadHigh(s: State, side: Side, n: nat, eof: bool)
    requires Pending(s) && Enabled(s, PumpRead(side, n, eof)) && Mode(s) > 3
    ensures Progress(s, PumpRead(side, n, eof), Step(s, PumpRead(side, n, eof)))
  {
    if n > 0 {
      PumpTakes(s, side, n, eof);
    } else {
      PumpEnds(s, side);
    }
  }

  /** A pump that takes output has output it can only fail to send. */
  lemma PumpTakes(s: State, side: Side, n: nat, eof: bool)
    requires Pending(s) && Enabled(s, PumpRead(side, n, eof)) && Mode(s) > 3 && n > 0
    ensures Progress(s, PumpRead(side, n, eof), Step(s, PumpRead(side, n, eof)))
  {
    RolesHold(CoreOf(s));
    SideHolds(CoreOf(s), Out);
    SideHolds(CoreOf(s), Err);
    PumpReadMoves(s, side, n, eof);
  }

  lemma PumpEnds(s: State, side: Side)
    requires Pending(s) && Enabled(s, PumpRead(side, 0, true)) && Mode(s) > 3
    ensures Progress(s, PumpRead(side, 0, true), Step(s, PumpRead(side, 0, true)))
  {
    RolesHold(CoreOf(s));
    PumpReadMoves(s, side, 0, true);
  }

  lemma PumpWroteMoves(s: State, side: Side)
    requires Enabled(s, PumpWrote(side))
    ensures PumpMoved(s, Step(s, PumpWrote(side)), side)
  {
    TurnedMoves(s, side, GetPipe(s, side), WrotePump(GetPump(s, side).last), Unlock(s.link));
    WroteTurns(s, side);
  }

  lemma PumpWroteProgress(s: State, side: Side)
    requires Pending(s) && Enabled(s, PumpWrote(side))
    ensures Progress(s, PumpWrote(side), Step(s, PumpWrote(side)))
  {
    PumpWroteMoves(s, side);
    if Mode(s) <= 3 {
      LowMode(s, Step(s, PumpWrote(side)), side, PumpWrote(side));
    } else {
      PumpWroteHigh(s, side);
    }
  }

  lemma PumpWroteHigh(s: State, side: Side)
    requires Pending(s) && Enabled(s, PumpWrote(side)) && Mode(s) > 3
    ensures Progress(s, PumpWrote(side), Step(s, PumpWrote(side)))
  {
    SideHolds(CoreOf(s), side);
    PumpWroteMoves(s, side);
  }

  lemma PumpFailsProgress(s: State, side: Side)
    requires Pending(s) && Enabled(s, PumpFails(side))
    ensures Progress(s, PumpFails(side), Step(s, PumpFails(side)))
  {
  }

  /** One frame taken from the inbox: less work, and no more stdin to hand over. */
  lemma ReadOneWork(s: State)
    requires s.reader.Idle? && ReadFrame(s.inbox).Got?
    ensures !ReadOne(s).reader.ReaderKills?
    ensures ReaderWork(ReadOne(s)) < ReaderWork(s)
    ensures ReaderFree(s) ==> ReaderFree(ReadOne(s))
  {
    LessWork(s);
    LessDemand(s);
  }

  lemma LessWork(s: State)
    requires s.reader.Idle? && ReadFrame(s.inbox).Got?
    ensures !ReadOne(s).reader.ReaderKills?
    ensures ReaderWork(ReadOne(s)) < ReaderWork(s)
  {
  }

  lemma LessDemand(s: State)
    requires s.reader.Idle? && ReadFrame(s.inbox).Got?
    ensures ReaderFree(s) ==> ReaderFree(ReadOne(s))
  {
  }

  lemma OnlyReaderMoved(s: State, t: State)
    requires Pending(s) && s.reader.Idle? && (t.reader.Idle? || t.reader.Feeding?)
    requires t == s.(inbox := t.inbox, reader := t.reader, proc := s.proc.(stdin := t.proc.stdin),
                         forwarded := t.forwarded)
    requires ReaderWork(t) < ReaderWork(s) && (ReaderFree(s) ==> ReaderFree(t))
    ensures Progress(s, ReadClient, t)
  {
    assert Undeliverable(s, Out) == Undeliverable(t, Out) && Undeliverable(s, Err) == Undeliverable(t, Err);
    assert Emptied(s) == Emptied(t) && Inside(s) == Inside(t);
  }

  lemma ReadClientProgress(s: State)
    requires Pending(s) && Enabled(s, ReadClient)
    ensures Progress(s, ReadClient, Step(s, ReadClient))
  {
    ReadOneKeeps(s);
    if ReadFrame(s.inbox).Got? {
      ReadOneWork(s);
      OnlyReaderMoved(s, ReadOne(s));
    } else {
      assert Kills(ReadOne(s), Reader);
    }
  }

  lemma FeedProgress(s: State, e: Event)
    requires Pending(s) && Enabled(s, e) && (e.FeedStdin? || e.StdinFails?)
    ensures Progress(s, e, Step(s, e))
  {
    assert ReaderFree(s) ==> ReaderFree(Step(s, e));
  }

  lemma PumpsDoneProgress(s: State)
    requires Pending(s) && Enabled(s, PumpsDone)
    ensures Progress(s, PumpsDone, Step(s, PumpsDone))
  {
  }

  lemma ReapProgress(s: State)
    requires Pending(s) && Enabled(s, Reap)
    ensures Progress(s, Reap, Step(s, Reap))
  {
  }

  lemma WritesProgress(s: State, side: Side, data: bytes)
    requires Pending(s) && Enabled(s, ProcWrites(side, data))
    ensures Progress(s, ProcWrites(side, data), Step(s, ProcWrites(side, data)))
  {
    MoreOutput(s, Step(s, ProcWrites(side, data)), side, data);
  }

  /** More output in a pipe leaves a pump as close to failing as it was, or closer. */
  lemma MoreOutput(s: State, t: State, side: Side, data: bytes)
    requires var p := GetPipe(s, side); t == SetPipe(s, side, p.(buffered := p.buffered + data))
    ensures Inside(t) == Inside(s) && ReaderFree(t) == ReaderFree(s) && ReaderWork(t) == ReaderWork(s)
    ensures Undeliverable(s, Out) ==> Undeliverable(t, Out)
    ensures Undeliverable(s, Err) ==> Undeliverable(t, Err)
    ensures PumpWork(t, Out) == PumpWork(s, Out) && PumpWork(t, Err) == PumpWork(s, Err)
    ensures Blocker(t, Out) == Blocker(s, Out) && Blocker(t, Err) == Blocker(s, Err)
    ensures EndWork(t) == EndWork(s) && t.proc.ended == s.proc.ended
    ensures t.proc.out.closed == s.proc.out.closed && t.proc.err.closed == s.proc.err.closed
  {
  }

  lemma ClosesProgress(s: State, side: Side)
    requires Pending(s) && Enabled(s, ProcCloses(side))
    ensures Progress(s, ProcCloses(side), Step(s, ProcCloses(side)))
  {
    PipeCloses(s, side);
  }

  lemma PipeCloses(s: State, side: Side)
    ensures var t := SetPipe(s, side, GetPipe(s, side).(closed := true));
            && Inside(t) == Inside(s) && ReaderFree(t) == ReaderFree(s) && ReaderWork(t) == ReaderWork(s)
            && Undeliverable(t, Out) == Undeliverable(s, Out) && Undeliverable(t, Err) == Undeliverable(s, Err)
            && PumpWork(t, Out) == PumpWork(s, Out) && PumpWork(t, Err) == PumpWork(s, Err)
            && Blocker(t, Out) == Blocker(s, Out) && Blocker(t, Err) == Blocker(s, Err)
            && EndWork(t) == EndWork(s) && (Emptied(s) ==> Emptied(t))
  {
  }

  /** What the process does to itself or its stdin is nothing to the pumps and to kill(). */
  lemma PipesAside(s: State, t: State)
    requires t == s.(proc := s.proc.(ended := t.proc.ended, stdin := t.proc.stdin))
    ensures Inside(t) == Inside(s)
    ensures Undeliverable(t, Out) == Undeliverable(s, Out) && Undeliverable(t, Err) == Undeliverable(s, Err)
    ensures PumpWork(t, Out) == PumpWork(s, Out) && PumpWork(t, Err) == PumpWork(s, Err)
    ensures Blocker(t, Out) == Blocker(s, Out) && Blocker(t, Err) == Blocker(s, Err)
    ensures ReaderWork(t) == ReaderWork(s)
  {
  }

  lemma ReadsProgress(s: State, k: nat)
    requires Pending(s) && Enabled(s, ProcReads(k))
    ensures Progress(s, ProcReads(k), Step(s, ProcReads(k)))
  {
    PipesAside(s, Step(s, ProcReads(k)));
  }

  lemma StdinClosesProgress(s: State)
    requires Pending(s)
    ensures Progress(s, ProcClosesStdin, Step(s, ProcClosesStdin))
  {
  }

  lemma EndsProgress(s: State, how: WaitResult)
    requires Pending(s) && Enabled(s, ProcEnds(how))
    ensures Progress(s, ProcEnds(how), Step(s, ProcEnds(how)))
  {
    PipesAside(s, Step(s, ProcEnds(how)));
  }

  lemma OutsideProgress(s: State, e: Event)
    requires Pending(s) && Enabled(s, e) && Actor(e) == None
    ensures Progress(s, e, Step(s, e))
  {
    match e
    case ProcWrites(side, data) => WritesProgress(s, side, data);
    case ProcCloses(side) => ClosesProgress(s, side);
    case ProcReads(k) => ReadsProgress(s, k);
    case ProcClosesStdin => StdinClosesProgress(s);
    case ProcEnds(how) => EndsProgress(s, how);
    case HangUp => assert Step(s, e) == s;
    case LinkDies => assert Step(s, e) == s;
    case _ =>
  }

  lemma WaiterProgress(s: State, e: Event)
    requires Pending(s) && Enabled(s, e) && WaiterEvent(e)
    ensures Progress(s, e, Step(s, e))
  {
    match e
    case PumpsDone => PumpsDoneProgress(s);
    case Reap => ReapProgress(s);
    case _ =>
  }

  lemma StepProgress(s: State, e: Event)
    requires Pending(s) && Enabled(s, e)
    ensures Progress(s, e, Step(s, e))
  {
    if PumpEvent(e) {
      PumpProgress(s, e);
    } else if KillEvent(e) {
      KillProgress(s, e);
    } else if WaiterEvent(e) {
      WaiterProgress(s, e);
    } else if Actor(e) == None {
      OutsideProgress(s, e);
    } else {
      ReaderOrTimerProgress(s, e);
    }
  }

  lemma PumpProgress(s: State, e: Event)
    requires Pending(s) && Enabled(s, e) && PumpEvent(e)
    ensures Progress(s, e, Step(s, e))
  {
    match e
    case PumpRead(side, n, eof) => PumpReadProgress(s, side, n, eof);
    case PumpBegins(_) =>
    case PumpWrote(side) => PumpWroteProgress(s, side);
    case PumpFails(side) => PumpFailsProgress(s, side);
  }

  lemma ReaderOrTimerProgress(s: State, e: Event)
    requires Pending(s) && Enabled(s, e)
    requires e.ReadClient? || e.FeedStdin? || e.StdinFails? || e.TimerKills? || e.TimerQuits?
    ensures Progress(s, e, Step(s, e))
  {
    match e
    case TimerKills => TimerProgress(s, e);
    case TimerQuits => TimerProgress(s, e);
    case ReadClient => ReadClientProgress(s);
    case FeedStdin(_) => FeedProgress(s, e);
    case StdinFails => FeedProgress(s, e);
  }
}
