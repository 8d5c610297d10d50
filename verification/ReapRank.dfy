/** Once the client is gone: which goroutine will bring the run to its end, and
    the measure that its steps bring down. */
module ReapRank {
  import opened Prelude
  import opened Frames
  import opened SharedLink
  import opened AgentRun
  import opened Delivery
  import opened KillOnce

  /** Both directions of the connection are dead. */
  predicate ClientGone(s: State) {
    s.hungUp && s.link.broken
  }

  /** The run is over, or the whole process group was killed. */
  predicate Ended(s: State) {
    s.finished || s.kill.sigkills > 0
  }

  /** Facts about a started run beside the stream invariant. */
  ghost predicate ThreadsOk(s: State) {
    && Ran(CoreOf(s))
    && s.proc.stdin.queued <= s.proc.stdin.cap
    && (s.reader.Feeding? ==> s.reader.data != [])
    && (s.reader.Gone? || s.outPump == Finished(WriteFailed) || s.errPump == Finished(WriteFailed)
        ==> s.kill.once.Spent?)
    && (!s.finished ==> s.main.Pumping? || s.main.Waiting? || s.main.Reaped?)
    && (s.main.Reaped? ==> s.proc.ended.Some?)
  }

  ghost predicate Live(s: State) {
    Inv(s) && KillOk(s) && ThreadsOk(s)
  }

  // ---- The condition ----

  predicate Inside(s: State) {
    Kills(s, Reader) || Kills(s, OutPump) || Kills(s, ErrPump)
  }

  /** A pump has output that it can only fail to send. */
  predicate Undeliverable(s: State, side: Side) {
    match GetPump(s, side)
    case Reading => GetPipe(s, side).buffered != []
    case Holding(_, _) => true
    case Sending(_) => s.link.pending != [] || GetPipe(s, side).buffered != []
    case _ => false
  }

  /** How many stdin bytes the reader still has to hand over before the inbox
      ends or the client's EOF is reached. */
  function Need(inbox: bytes): nat
    decreases |inbox|
  {
    match ReadFrame(inbox)
    case Got(f, rest) =>
      if f.kind == STDIN then |f.payload| + Need(rest)
      else if f.kind == STDIN_EOF then 0
      else Need(rest)
    case _ => 0
  }

  function Demand(s: State): nat {
    if !s.proc.stdin.writeEndOpen then 0
    else Need(s.inbox) + (if s.reader.Feeding? then |s.reader.data| else 0)
  }

  /** The reader cannot get stuck in stdin.Write: the process closed its stdin,
      or all that is left to hand over fits in the pipe. */
  predicate ReaderFree(s: State) {
    s.proc.stdin.readEndClosed || Demand(s) <= Room(s.proc.stdin)
  }

  /** The process is gone and every descendant closed its output. */
  predicate Emptied(s: State) {
    s.proc.ended.Some? && s.proc.out.closed && s.proc.err.closed
  }

  /** The condition under which the agent is bound to reap. */
  predicate BoundToReap(s: State) {
    || !s.kill.once.Fresh? || Inside(s)
    || ReaderFree(s)
    || Undeliverable(s, Out) || Undeliverable(s, Err)
    || Emptied(s)
  }

  // ---- Who makes progress, and by what measure ----

  function Mode(s: State): nat {
    if s.kill.timer.Armed? then 0
    else if s.kill.once.Committed? then 1
    else if Inside(s) then 2
    else if ReaderFree(s) then 3
    else if Undeliverable(s, Out) then 4
    else if Undeliverable(s, Err) then 5
    else 6
  }

  function ReaderWork(s: State): nat {
    2 * |s.inbox| + if s.reader.Feeding? then |s.reader.data| else 0
  }

  /** The pump in the way of side: the one that holds the lock, else side's own. */
  function Blocker(s: State, side: Side): Side {
    var other := if side.Out? then Err else Out;
    if GetPump(s, side).Holding? && s.link.holder == Held(PumpOf(other)) then other else side
  }

  function PumpWork(s: State, side: Side): nat {
    match GetPump(s, side)
    case Reading => 3
    case Holding(_, _) => if s.link.holder.Free? then 1 else 2
    case Sending(_) => 4
    case _ => 0
  }

  function EndWork(s: State): nat {
    PumpWork(s, Out) + PumpWork(s, Err)
    + (match s.main case Pumping => 3 case Waiting => 2 case _ => 1)
  }

  function Inner(s: State): nat {
    match Mode(s)
    case 2 => if Kills(s, Reader) then 0 else if Kills(s, OutPump) then 1 else 2
    case 3 => ReaderWork(s)
    case 4 => PumpWork(s, Out)
    case 5 => PumpWork(s, Err)
    case 6 => EndWork(s)
    case _ => 0
  }

  function Helper(s: State): Thread {
    match Mode(s)
    case 0 => Timer
    case 1 => s.kill.once.caller
    case 2 => if Kills(s, Reader) then Reader else if Kills(s, OutPump) then OutPump else ErrPump
    case 3 => Reader
    case 4 => PumpOf(Blocker(s, Out))
    case 5 => PumpOf(Blocker(s, Err))
    case _ =>
      if !s.outPump.Finished? then OutPump
      else if !s.errPump.Finished? then ErrPump
      else Waiter
  }

  predicate Less(t: State, s: State) {
    Mode(t) < Mode(s) || (Mode(t) == Mode(s) && Inner(t) < Inner(s))
  }

  /** The hypotheses of a step towards reaping. */
  ghost predicate Pending(s: State) {
    Live(s) && ClientGone(s) && !Ended(s) && BoundToReap(s)
  }

  /** What one step does: it reaps, or brings the measure down, or was not the
      helper's and changed neither the measure nor the helper. */
  ghost predicate Progress(s: State, e: Event, t: State) {
    || Ended(t)
    || (BoundToReap(t) && Less(t, s))
    || (BoundToReap(t) && Mode(t) == Mode(s) && Inner(t) == Inner(s) && Helper(t) == Helper(s)
        && Actor(e) != Some(Helper(s)))
  }

  ghost predicate CanRun(s: State, t: Thread) {
    exists e :: Enabled(s, e) && Actor(e) == Some(t)
  }
}
