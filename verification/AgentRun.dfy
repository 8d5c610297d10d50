/** The agent's side of one accepted run, as a state machine whose steps are the
    atomic actions of its goroutines (two pumps, the client-frame reader, the
    kill timer, the waiter), of the process and of the connection. */
module AgentRun {
  import opened Prelude
  import opened Frames
  import opened SharedLink

  datatype Thread = OutPump | ErrPump | Reader | Timer | Waiter

  datatype Side = Out | Err

  const PUMP_BUF: nat := 0x1_0000
  const TREE_BUF: nat := 0x8000

  function PumpOf(side: Side): Thread {
    if side.Out? then OutPump else ErrPump
  }

  function KindOf(side: Side): byte {
    if side.Out? then STDOUT else STDERR
  }

  // ---- The process ----

  /** How the process ended, as c.Wait reports it. */
  datatype WaitResult = Exited(status: byte) | Signaled(signal: byte) | WaitError

  function ExitStatus(w: WaitResult): (code: int)
    ensures 0 <= code < 0x200
    ensures w.Exited? ==> code == (w.status as int)
    ensures w.Signaled? ==> code == 128 + (w.signal as int)
    ensures w.WaitError? ==> code == 127
  {
    match w
    case Exited(status) => status
    case Signaled(signal) => 128 + signal as int
    case WaitError => 127
  }

  /** An output pipe: what the pump has read so far, what it has yet to read,
      and whether every write end is closed. */
  datatype Pipe = Pipe(taken: bytes, buffered: bytes, closed: bool)

  function TextOf(p: Pipe): bytes {
    p.taken + p.buffered
  }

  /** The stdin pipe: given is every byte the agent wrote, queued how many of
      them the process has not read, cap the kernel's buffer size. */
  datatype Stdin = Stdin(given: bytes, queued: nat, cap: nat, readEndClosed: bool, writeEndOpen: bool)

  function Room(i: Stdin): nat {
    if i.queued <= i.cap then i.cap - i.queued else 0
  }

  datatype Proc = Proc(ended: Option<WaitResult>, out: Pipe, err: Pipe, stdin: Stdin)

  // ---- The goroutines ----

  datatype PumpEnd = AtEof | WriteFailed | NeverRan

  datatype Pump =
    | Reading
    | Holding(chunk: bytes, last: bool)   // r.Read returned; about to call fw.Write
    | Sending(last: bool)                 // inside fw.Write, the lock held
    | PumpKills                           // the write failed; inside kill()
    | Finished(end: PumpEnd)

  datatype FrameReader =
    | Idle
    | Feeding(data: bytes)                // inside stdin.Write
    | ReaderKills                         // the client is gone; inside kill()
    | Gone

  /** The sync.Once around kill's body; Committed has passed the check of
      `finished` and is about to send SIGINT. */
  datatype Once = Fresh | Committed(caller: Thread) | Spent

  datatype KillTimer = Off | Armed | Stopped

  datatype Kill = Kill(once: Once, timer: KillTimer, sigints: nat, sigkills: nat)

  datatype Main =
    | Refusing                            // the process never started: report it
    | Pumping                             // waiting for both pumps
    | Waiting                             // inside c.Wait
    | Reaped                              // c.Wait returned; finished still open
    | Mirroring(chunks: seq<bytes>)       // sendTree, chunks still to write
    | Exiting                             // WriteExit
    | Returned

  /** inbox    bytes of the client's stream not yet consumed by the reader
      hungUp   no more bytes will arrive
      finished the `finished` channel is closed
      code     the exit code, once known
      notice   the message sent instead of running, "" in an ordinary run
      sync     the request asked for the tree to be mirrored back
      mirror   the tar stream to mirror back, once computed
      forwarded the signal numbers passed on to the process group */
  datatype State = State(
    proc: Proc, outPump: Pump, errPump: Pump, reader: FrameReader, kill: Kill, main: Main,
    link: Link<Thread>, inbox: bytes, hungUp: bool, finished: bool, code: int,
    notice: bytes, sync: bool, mirror: Option<bytes>, forwarded: bytes)

  function GetPipe(s: State, side: Side): Pipe {
    if side.Out? then s.proc.out else s.proc.err
  }

  function SetPipe(s: State, side: Side, p: Pipe): State {
    if side.Out? then s.(proc := s.proc.(out := p)) else s.(proc := s.proc.(err := p))
  }

  function GetPump(s: State, side: Side): Pump {
    if side.Out? then s.outPump else s.errPump
  }

  function SetPump(s: State, side: Side, p: Pump): State {
    if side.Out? then s.(outPump := p) else s.(errPump := p)
  }

  function SetStdin(s: State, i: Stdin): State {
    s.(proc := s.proc.(stdin := i))
  }

  /** A started process; inbox is what the client sent ahead. */
  function Started(sync: bool, cap: nat, inbox: bytes): State {
    State(Proc(None, Pipe([], [], false), Pipe([], [], false), Stdin([], 0, cap, false, true)),
          Reading, Reading, Idle, Kill(Fresh, Off, 0, 0), Pumping,
          NewLink(), inbox, false, false, 0, [], sync, None, [])
  }

  /** A --dir run whose tree could not be received or whose command could not
      be started: a stderr message and an exit code. */
  function Refused(notice: bytes, code: int, inbox: bytes): State {
    State(Proc(None, Pipe([], [], true), Pipe([], [], true), Stdin([], 0, 0, true, false)),
          Finished(NeverRan), Finished(NeverRan), Gone, Kill(Fresh, Off, 0, 0), Refusing,
          NewLink(), inbox, false, false, code, notice, false, None, [])
  }

  // ---- Steps ----

  datatype Event =
    // the client and the connection
    | Arrive(data: bytes) | HangUp | LinkDies | Accept(k: nat)
    // the process and its descendants
    | ProcWrites(side: Side, data: bytes) | ProcCloses(side: Side) | ProcEnds(how: WaitResult)
    | ProcReads(k: nat) | ProcClosesStdin
    // a pump
    | PumpRead(side: Side, n: nat, eof: bool) | PumpBegins(side: Side) | PumpWrote(side: Side) | PumpFails(side: Side)
    // kill(), called by a pump or the reader, and its timer
    | KillCheck(caller: Thread) | KillSignal(caller: Thread) | KillPass(caller: Thread)
    | TimerKills | TimerQuits
    // the client-frame reader
    | ReadClient | FeedStdin(k: nat) | StdinFails
    // the waiter
    | PumpsDone | Reap | Finish(tree: Option<seq<bytes>>) | MainBegins | MainWrote | MainFails

  /** The goroutine that takes a step; None for the outside world. */
  function Actor(e: Event): Option<Thread> {
    match e
    case PumpRead(side, _, _) => Some(PumpOf(side))
    case PumpBegins(side) => Some(PumpOf(side))
    case PumpWrote(side) => Some(PumpOf(side))
    case PumpFails(side) => Some(PumpOf(side))
    case KillCheck(t) => Some(t)
    case KillSignal(t) => Some(t)
    case KillPass(t) => Some(t)
    case TimerKills => Some(Timer)
    case TimerQuits => Some(Timer)
    case ReadClient => Some(Reader)
    case FeedStdin(_) => Some(Reader)
    case StdinFails => Some(Reader)
    case PumpsDone => Some(Waiter)
    case Reap => Some(Waiter)
    case Finish(_) => Some(Waiter)
    case MainBegins => Some(Waiter)
    case MainWrote => Some(Waiter)
    case MainFails => Some(Waiter)
    case _ => None
  }

  predicate PumpEvent(e: Event) {
    e.PumpRead? || e.PumpBegins? || e.PumpWrote? || e.PumpFails?
  }

  predicate KillEvent(e: Event) {
    e.KillCheck? || e.KillSignal? || e.KillPass?
  }

  predicate WaiterEvent(e: Event) {
    e.PumpsDone? || e.Reap? || e.Finish? || e.MainBegins? || e.MainWrote? || e.MainFails?
  }

  predicate Kills(s: State, t: Thread) {
    match t
    case OutPump => s.outPump.PumpKills?
    case ErrPump => s.errPump.PumpKills?
    case Reader => s.reader.ReaderKills?
    case _ => false
  }

  /** kill() returns to its caller. */
  function KillReturns(s: State, t: Thread): State {
    match t
    case OutPump => s.(outPump := Finished(WriteFailed))
    case ErrPump => s.(errPump := Finished(WriteFailed))
    case _ => s.(reader := Gone)
  }

  predicate Chunks(tree: seq<bytes>) {
    forall i :: 0 <= i < |tree| ==> 0 < |tree[i]| <= TREE_BUF
  }

  predicate MainWrites(m: Main) {
    m.Refusing? || m.Mirroring? || m.Exiting?
  }

  /** The frame the waiter writes next. */
  function MainFrame(s: State): Frame
    requires MainWrites(s.main)
  {
    match s.main
    case Refusing => Frame(STDERR, s.notice)
    case Mirroring(chunks) => if chunks == [] then Frame(OUT_END, []) else Frame(OUT_TAR, chunks[0])
    case Exiting => ExitFrame(s.code)
  }

  function MainNext(m: Main): Main
    requires MainWrites(m)
  {
    match m
    case Refusing => Exiting
    case Mirroring(chunks) => if chunks == [] then Exiting else Mirroring(chunks[1..])
    case Exiting => Returned
  }

  predicate Enabled(s: State, e: Event) {
    match e
    case Arrive(data) => !s.hungUp
    case HangUp => true
    case LinkDies => true
    case Accept(k) => CanPush(s.link, k)
    case ProcWrites(side, data) => !GetPipe(s, side).closed
    case ProcCloses(side) => true
    case ProcEnds(how) => s.proc.ended.None? && !s.main.Refusing?
    case ProcReads(k) => 0 < k <= s.proc.stdin.queued
    case ProcClosesStdin => true
    case PumpRead(side, n, eof) =>
      && GetPump(s, side).Reading?
      && (var p := GetPipe(s, side);
          && n <= |p.buffered| && n <= PUMP_BUF && (n > 0 || eof)
          && (eof ==> p.closed && n == |p.buffered|))
    case PumpBegins(side) =>
      && GetPump(s, side).Holding?
      && CanBegin(s.link, Frame(KindOf(side), GetPump(s, side).chunk))
    case PumpWrote(side) => GetPump(s, side).Sending? && Written(s.link, PumpOf(side))
    case PumpFails(side) =>
      || (GetPump(s, side).Sending? && CutOff(s.link, PumpOf(side)))
      || (GetPump(s, side).Holding? && Refuses(s.link))
    case KillCheck(t) => Kills(s, t) && s.kill.once.Fresh?
    case KillSignal(t) => Kills(s, t) && s.kill.once == Committed(t)
    case KillPass(t) => Kills(s, t) && s.kill.once.Spent?
    case TimerKills => s.kill.timer.Armed?
    case TimerQuits => s.kill.timer.Armed? && s.finished
    case ReadClient => s.reader.Idle? && (ReadFrame(s.inbox).Short? ==> s.hungUp)
    case FeedStdin(k) =>
      && s.reader.Feeding? && s.proc.stdin.writeEndOpen && !s.proc.stdin.readEndClosed
      && 0 < k <= |s.reader.data| && k <= Room(s.proc.stdin)
    case StdinFails => s.reader.Feeding? && (s.proc.stdin.readEndClosed || !s.proc.stdin.writeEndOpen)
    case PumpsDone => s.main.Pumping? && s.outPump.Finished? && s.errPump.Finished?
    case Reap => s.main.Waiting? && s.proc.ended.Some?
    case Finish(tree) => s.main.Reaped? && (tree.Some? ==> s.sync && Chunks(tree.value))
    case MainBegins => MainWrites(s.main) && CanBegin(s.link, MainFrame(s))
    case MainWrote => MainWrites(s.main) && Written(s.link, Waiter)
    case MainFails =>
      && MainWrites(s.main)
      && (CutOff(s.link, Waiter) || Refuses(s.link) || (s.link.holder.Free? && !Fits(MainFrame(s))))
  }

  function Step(s: State, e: Event): State
    requires Enabled(s, e)
  {
    match e
    case Arrive(data) => s.(inbox := s.inbox + data)
    case HangUp => s.(hungUp := true)
    case LinkDies => s.(link := Sever(s.link))
    case Accept(k) => s.(link := Push(s.link, k))
    case ProcWrites(side, data) =>
      var p := GetPipe(s, side);
      SetPipe(s, side, p.(buffered := p.buffered + data))
    case ProcCloses(side) => SetPipe(s, side, GetPipe(s, side).(closed := true))
    case ProcEnds(how) => s.(proc := s.proc.(ended := Some(how)))
    case ProcReads(k) => SetStdin(s, s.proc.stdin.(queued := s.proc.stdin.queued - k))
    case ProcClosesStdin => SetStdin(s, s.proc.stdin.(readEndClosed := true))
    case PumpRead(side, n, eof) =>
      var p := GetPipe(s, side);
      SetPump(SetPipe(s, side, Pipe(p.taken + p.buffered[..n], p.buffered[n..], p.closed)), side,
              if n > 0 then Holding(p.buffered[..n], eof) else Finished(AtEof))
    case PumpBegins(side) =>
      var pump := GetPump(s, side);
      SetPump(s, side, Sending(pump.last)).(link := Begin(s.link, PumpOf(side), Frame(KindOf(side), pump.chunk)))
    case PumpWrote(side) =>
      SetPump(s, side, if GetPump(s, side).last then Finished(AtEof) else Reading).(link := Unlock(s.link))
    case PumpFails(side) =>
      SetPump(s, side, PumpKills).(link := if GetPump(s, side).Sending? then Unlock(s.link) else s.link)
    case KillCheck(t) =>
      if s.finished then KillReturns(s.(kill := s.kill.(once := Spent)), t)
      else s.(kill := s.kill.(once := Committed(t)))
    case KillSignal(t) =>
      KillReturns(s.(kill := Kill(Spent, Armed, s.kill.sigints + 1, s.kill.sigkills)), t)
    case KillPass(t) => KillReturns(s, t)
    case TimerKills => s.(kill := s.kill.(timer := Stopped, sigkills := s.kill.sigkills + 1))
    case TimerQuits => s.(kill := s.kill.(timer := Stopped))
    case ReadClient => ReadOne(s)
    case FeedStdin(k) =>
      var i := s.proc.stdin;
      var d := s.reader.data;
      SetStdin(s, i.(given := i.given + d[..k], queued := i.queued + k))
      .(reader := if k == |d| then Idle else Feeding(d[k..]))
    case StdinFails => s.(reader := Idle)
    case PumpsDone => s.(main := Waiting)
    case Reap =>
      SetStdin(s, s.proc.stdin.(writeEndOpen := false)).(main := Reaped, code := ExitStatus(s.proc.ended.value))
    case Finish(tree) =>
      if tree.None? then s.(finished := true, main := Exiting)
      else s.(finished := true, main := Mirroring(tree.value), mirror := Some(Flatten(tree.value)))
    case MainBegins => s.(link := Begin(s.link, Waiter, MainFrame(s)))
    case MainWrote => s.(main := MainNext(s.main), link := Unlock(s.link))
    case MainFails =>
      s.(main := if s.main.Exiting? then Returned else Exiting,
         link := if s.link.holder.Free? then s.link else Unlock(s.link))
  }

  /** One turn of readClientFrames. Frame types it does not know are ignored. */
  function ReadOne(s: State): State {
    match ReadFrame(s.inbox)
    case Got(f, rest) =>
      var i := s.proc.stdin;
      var t := s.(inbox := rest);
      if f.kind == STDIN then
        if f.payload != [] && i.writeEndOpen && !i.readEndClosed then t.(reader := Feeding(f.payload)) else t
      else if f.kind == STDIN_EOF then SetStdin(t, i.(writeEndOpen := false))
      else if f.kind == SIGNAL && f.payload != [] then t.(forwarded := s.forwarded + [f.payload[0]])
      else t
    case _ => s.(reader := ReaderKills)
  }

  /** What one turn of the reader leaves alone. */
  lemma ReadOneKeeps(s: State)
    requires s.reader.Idle?
    ensures ReadOne(s) == s.(inbox := ReadOne(s).inbox, reader := ReadOne(s).reader,
                             proc := s.proc.(stdin := ReadOne(s).proc.stdin), forwarded := ReadOne(s).forwarded)
    ensures ReadOne(s).proc.stdin == s.proc.stdin.(writeEndOpen := ReadOne(s).proc.stdin.writeEndOpen)
    ensures !ReadOne(s).reader.Gone? && (ReadOne(s).reader.Feeding? ==> ReadOne(s).reader.data != [])
  {
  }

  predicate OwnEvent(e: Event) {
    PumpEvent(e) || KillEvent(e) || WaiterEvent(e)
  }

  /** What the world outside, the reader and the timer leave alone. */
  ghost predicate GoroutinesLeft(s: State, t: State) {
    && t.outPump == s.outPump && t.errPump == s.errPump && t.main == s.main && t.finished == s.finished
    && t.code == s.code && t.notice == s.notice && t.kill.once == s.kill.once
  }

  lemma OthersLeave(s: State, e: Event)
    requires Enabled(s, e) && !OwnEvent(e)
    ensures GoroutinesLeft(s, Step(s, e))
  {
    if e.ReadClient? {
      ReadOneKeeps(s);
    } else if e.FeedStdin? || e.StdinFails? || e.ProcReads? || e.ProcClosesStdin? || e.ProcEnds? {
      StdinEventsLeave(s, e);
    } else if e.ProcWrites? || e.ProcCloses? {
      PipeEventsLeave(s, e);
    }
  }

  lemma StdinEventsLeave(s: State, e: Event)
    requires Enabled(s, e)
    requires e.FeedStdin? || e.StdinFails? || e.ProcReads? || e.ProcClosesStdin? || e.ProcEnds?
    ensures GoroutinesLeft(s, Step(s, e))
  {
  }

  lemma PipeEventsLeave(s: State, e: Event)
    requires Enabled(s, e) && (e.ProcWrites? || e.ProcCloses?)
    ensures GoroutinesLeft(s, Step(s, e)) && Step(s, e).proc.ended == s.proc.ended
  {
  }

  /** t is reached from s by the events es. */
  ghost predicate Reaches(s: State, es: seq<Event>, t: State)
    decreases |es|
  {
    if es == [] then s == t
    else Enabled(s, es[0]) && Reaches(Step(s, es[0]), es[1..], t)
  }

  /** Every state an accepted run can be in. */
  ghost predicate IsStart(s: State) {
    || (exists sync, cap, inbox :: s == Started(sync, cap, inbox))
    || (exists notice, code, inbox :: s == Refused(notice, code, inbox))
  }

  lemma {:induction false} ReachesTrans(s: State, es: seq<Event>, t: State, fs: seq<Event>, u: State)
    requires Reaches(s, es, t) && Reaches(t, fs, u)
    ensures Reaches(s, es + fs, u)
    decreases |es|
  {
    if es == [] {
      assert es + fs == fs;
    } else {
      assert (es + fs)[1..] == es[1..] + fs;
      ReachesTrans(Step(s, es[0]), es[1..], t, fs, u);
    }
  }

  lemma ReachesOne(s: State, e: Event)
    requires Enabled(s, e)
    ensures Reaches(s, [e], Step(s, e))
  {
    assert Reaches(Step(s, e), [], Step(s, e));
  }

  lemma ReachesSnoc(s: State, es: seq<Event>, t: State, e: Event)
    requires Reaches(s, es, t) && Enabled(t, e)
    ensures Reaches(s, es + [e], Step(t, e))
  {
    ReachesOne(t, e);
    ReachesTrans(s, es, t, [e], Step(t, e));
  }
}
