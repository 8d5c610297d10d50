/** What the client of a run can conclude, in every interleaving of the agent's
    goroutines and for every byte at which the connection stops. */
module ClientSees {
  import opened Prelude
  import opened Frames
  import opened SharedLink
  import opened AgentRun
  import opened Delivery
  import opened ClientLoop

  /** On a grammatical stream the client's view is exactly the payloads. */
  ghost predicate Matches(fs: seq<Frame>, v: View) {
    && v.stdout == Payloads(fs, STDOUT)
    && v.stderr == Payloads(fs, STDERR)
    && (Scan(fs).Over? <==> v.code.Some?)
    && (Scan(fs).Over? ==> fs != [] && v.code.value == ExitCode(fs[|fs| - 1].payload))
    && TreeView(Scan(fs), v, Payloads(fs, OUT_TAR))
  }

  lemma {:induction false} ViewOfStream(fs: seq<Frame>)
    requires Scan(fs) != Bad
    ensures Matches(fs, Seen(fs))
    decreases |fs|
  {
    if fs != [] {
      var init, f := fs[..|fs| - 1], fs[|fs| - 1];
      assert fs == init + [f];
      ScanPrefix(fs, |init|);
      ViewOfStream(init);
      ViewStep(init, f, Seen(init));
      SeenSnoc(init, f);
    }
  }

  lemma ViewStep(fs: seq<Frame>, f: Frame, v: View)
    requires Matches(fs, v) && Scan(fs + [f]) != Bad
    ensures Matches(fs + [f], Absorb(v, f))
  {
    Snoc(fs, f);
    AbsorbTree(Scan(fs), v, f, Payloads(fs, OUT_TAR));
    assert (fs + [f])[|fs + [f]| - 1] == f;
  }

  /** How far the mirrored tree has got, by phase. */
  ghost predicate TreeView(p: Phase, v: View, tars: bytes) {
    match p
    case TreeOpen => v.tar == Some(tars) && v.applied == []
    case TreeClosed(tree) => v.tar == None && v.applied == (if tree then [tars] else [])
    case Over(tree) => v.tar == None && v.applied == (if tree then [tars] else [])
    case _ => v.tar == None && v.applied == [] && tars == []
  }

  lemma AbsorbTree(p: Phase, v: View, f: Frame, tars: bytes)
    requires TreeView(p, v, tars) && v.code.None? && Advance(p, f.kind) != Bad
    ensures TreeView(Advance(p, f.kind), Absorb(v, f), if f.kind == OUT_TAR then tars + f.payload else tars)
  {
    assert [] + f.payload == f.payload;
  }

  // ---- The exit code the agent sends is the process's own ----

  predicate CodeOk(start: State, s: State) {
    && (s.outPump == Finished(NeverRan) <==> start.outPump == Finished(NeverRan))
    && s.notice == start.notice
    && (s.outPump == Finished(NeverRan)
        ==> s.code == start.code && (s.main.Refusing? || MainWrites(s.main) || s.main.Returned?))
    && (s.outPump != Finished(NeverRan) && (s.main.Reaped? || MainWrites(s.main) || s.main.Returned?)
        ==> s.proc.ended.Some? && s.code == ExitStatus(s.proc.ended.value))
  }

  lemma CodeStep(start: State, s: State, e: Event)
    requires CodeOk(start, s) && RolesOk(CoreOf(s)) && Enabled(s, e)
    ensures CodeOk(start, Step(s, e))
  {
    if PumpEvent(e) {
      CodePumpStep(start, s, e);
    } else if KillEvent(e) {
      CodeKillStep(start, s, e);
    } else if WaiterEvent(e) {
      CodeWaiterStep(start, s, e);
    } else {
      CodeAside(start, s, e);
    }
  }

  lemma CodeAside(start: State, s: State, e: Event)
    requires CodeOk(start, s) && Enabled(s, e) && !PumpEvent(e) && !KillEvent(e) && !WaiterEvent(e)
    ensures CodeOk(start, Step(s, e))
  {
    if e.ReadClient? {
      CodeReadClient(start, s);
    } else if e.ProcEnds? {
      CodeProcEnds(start, s, e.how);
    } else {
      OthersLeave(s, e);
      EndedLeft(s, e);
    }
  }

  lemma EndedLeft(s: State, e: Event)
    requires Enabled(s, e) && !OwnEvent(e) && !e.ReadClient? && !e.ProcEnds?
    ensures Step(s, e).proc.ended == s.proc.ended
  {
    if e.ProcWrites? || e.ProcCloses? {
      PipeEventsLeave(s, e);
    }
  }

  lemma CodeReadClient(start: State, s: State)
    requires CodeOk(start, s) && Enabled(s, ReadClient)
    ensures CodeOk(start, Step(s, ReadClient))
  {
    ReadOneKeeps(s);
  }

  lemma CodeProcEnds(start: State, s: State, how: WaitResult)
    requires CodeOk(start, s) && Enabled(s, ProcEnds(how))
    ensures CodeOk(start, Step(s, ProcEnds(how)))
  {
  }

  lemma CodePumpStep(start: State, s: State, e: Event)
    requires CodeOk(start, s) && Enabled(s, e) && PumpEvent(e)
    ensures CodeOk(start, Step(s, e))
  {
    match e
    case PumpRead(side, n, eof) => CodePumpRead(start, s, side, n, eof);
    case PumpBegins(side) => CodePumpBegins(start, s, side);
    case PumpWrote(side) => CodePumpWrote(start, s, side);
    case PumpFails(side) => CodePumpFails(start, s, side);
  }

  lemma CodePumpRead(start: State, s: State, side: Side, n: nat, eof: bool)
    requires CodeOk(start, s) && Enabled(s, PumpRead(side, n, eof))
    ensures CodeOk(start, Step(s, PumpRead(side, n, eof)))
  {
  }

  lemma CodePumpBegins(start: State, s: State, side: Side)
    requires CodeOk(start, s) && Enabled(s, PumpBegins(side))
    ensures CodeOk(start, Step(s, PumpBegins(side)))
  {
  }

  lemma CodePumpWrote(start: State, s: State, side: Side)
    requires CodeOk(start, s) && Enabled(s, PumpWrote(side))
    ensures CodeOk(start, Step(s, PumpWrote(side)))
  {
  }

  lemma CodePumpFails(start: State, s: State, side: Side)
    requires CodeOk(start, s) && Enabled(s, PumpFails(side))
    ensures CodeOk(start, Step(s, PumpFails(side)))
  {
  }

  lemma CodeKillStep(start: State, s: State, e: Event)
    requires CodeOk(start, s) && Enabled(s, e) && KillEvent(e)
    ensures CodeOk(start, Step(s, e))
  {
    match e
    case KillCheck(t) => CodeKillReturns(start, s, t);
    case KillSignal(t) => CodeKillReturns(start, s, t);
    case KillPass(t) =>
      CodeKillReturns(start, s, t);
      assert s.(kill := s.kill) == s;
  }

  lemma CodeKillReturns(start: State, s: State, t: Thread)
    requires CodeOk(start, s) && Kills(s, t)
    ensures forall k: Kill :: CodeOk(start, KillReturns(s.(kill := k), t))
  {
  }

  lemma CodeWaiterStep(start: State, s: State, e: Event)
    requires CodeOk(start, s) && RolesOk(CoreOf(s)) && Enabled(s, e) && WaiterEvent(e)
    ensures CodeOk(start, Step(s, e))
  {
  }

  lemma {:induction false} CodeRun(start: State, s: State, es: seq<Event>, t: State)
    requires CodeOk(start, s) && Inv(s) && Reaches(s, es, t)
    ensures CodeOk(start, t) && Inv(t)
    decreases |es|
  {
    if es != [] {
      RolesHold(CoreOf(s));
      CodeStep(start, s, es[0]);
      StepInv(s, es[0]);
      CodeRun(start, Step(s, es[0]), es[1..], t);
    }
  }

  // ---- Main results ----

  /** The text one side of the terminal should end up with: what the process
      wrote, or the agent's own notice when nothing was run. */
  function Expected(t: State, side: Side): bytes {
    if side.Err? && !Ran(CoreOf(t)) then t.notice else TextOf(GetPipe(t, side))
  }

  /** The trees the client must have applied. */
  function Mirrored(t: State): seq<bytes> {
    if t.mirror.Some? && t.mirror.value != [] then [t.mirror.value] else []
  }

  lemma FramedIsExpected(t: State)
    requires Inv(t)
    ensures Payloads(t.link.frames, STDOUT) <= Expected(t, Out)
    ensures Payloads(t.link.frames, STDERR) <= Expected(t, Err)
    ensures Scan(t.link.frames).Over? ==> Payloads(t.link.frames, STDOUT) == Expected(t, Out)
    ensures Scan(t.link.frames).Over? && Fits(Frame(STDERR, t.notice)) ==>
              Payloads(t.link.frames, STDERR) == Expected(t, Err)
  {
    Parts(CoreOf(t));
    SideFramed(CoreOf(t), Out);
    SideFramed(CoreOf(t), Err);
  }

  /** The text of one side, in terms of the invariant's part of the state. */
  function CoreExpected(c: Core, side: Side): bytes {
    if side.Err? && !Ran(c) then c.notice else TextOf(CorePipe(c, side))
  }

  lemma SideFramed(c: Core, side: Side)
    requires RolesOk(c) && SideOf(c, side) && MainOk(c)
    ensures Payloads(c.link.frames, KindOf(side)) <= CoreExpected(c, side)
    ensures Scan(c.link.frames).Over? && (Ran(c) || side.Out? || Fits(Frame(STDERR, c.notice))) ==>
              Payloads(c.link.frames, KindOf(side)) == CoreExpected(c, side)
  {
  }

  lemma StreamIsGood(c: Core)
    requires CoreInv(c)
    ensures LinkOk(c.link) && Scan(c.link.frames) != Bad
    ensures Scan(c.link.frames).Over? ==>
              && c.link.frames[|c.link.frames| - 1] == ExitFrame(c.code)
              && Scan(c.link.frames) == Over(MirrorBytes(c) != []) && Payloads(c.link.frames, OUT_TAR) == MirrorBytes(c)
              && (c.main.Exiting? || c.main.Returned?)
  {
    Parts(c);
  }

  /** In every reachable state, whatever prefix of the wire the client got
      before its read error: the stream obeys the grammar, and each side of the
      terminal shows a prefix of what was written to that side. */
  lemma PrefixDelivery(start: State, es: seq<Event>, t: State, cut: bytes)
    requires IsStart(start) && Reaches(start, es, t) && cut <= t.link.wire
    ensures PrefixOfSession(t.link.frames) && PrefixOfSession(ReadAll(cut).frames)
    ensures ViewOf(cut).stdout <= Expected(t, Out)
    ensures ViewOf(cut).stderr <= Expected(t, Err)
  {
    StartInv(start);
    RunInv(start, es, t);
    StreamIsGood(CoreOf(t));
    FarEnd(t.link, cut);
    var fs, got := t.link.frames, ReadAll(cut).frames;
    assert got == fs[..|got|];
    ScanPrefix(fs, |got|);
    ViewOfStream(got);
    PayloadsPrefix(fs, |got|, STDOUT);
    PayloadsPrefix(fs, |got|, STDERR);
    FramedIsExpected(t);
    var io, tars, end, exit := ScanSound(fs);
    io, tars, end, exit := ScanSound(got);
  }

  /** Exit is unambiguous: the client sees a code exactly when the whole stream,
      down to the last byte of the exit frame, arrived; it then has all of the
      output and the mirrored tree, and returns the code given to WriteExit
      (negative ones included). At any other cut it returns 124. */
  lemma ExitIsUnambiguous(start: State, es: seq<Event>, t: State, cut: bytes)
    requires IsStart(start) && Reaches(start, es, t) && cut <= t.link.wire
    ensures AllFit(t.link.frames)
    ensures ViewOf(cut).code.Some? <==>
              Scan(t.link.frames).Over? && cut == EncodeAll(t.link.frames)
    ensures ViewOf(cut).code.None? ==> Outcome(ViewOf(cut)) == EXIT_DISCONNECTED
    ensures ViewOf(cut).code.Some? ==>
              && Outcome(ViewOf(cut)) == ExitCode(ExitFrame(t.code).payload)
              && (-TWO31 <= t.code < TWO31 ==> Outcome(ViewOf(cut)) == t.code)
              && ViewOf(cut).stdout == Expected(t, Out)
              && (Fits(Frame(STDERR, t.notice)) ==> ViewOf(cut).stderr == Expected(t, Err))
              && ViewOf(cut).tar == None && ViewOf(cut).applied == Mirrored(t)
  {
    StartInv(start);
    RunInv(start, es, t);
    ViewMatches(t, cut);
    StreamIsGood(CoreOf(t));
    if ViewOf(cut).code.Some? {
      FramedIsExpected(t);
      ExitCodeRoundTrip(t.code);
    }
  }

  /** The client's view is over exactly when the stream is and all of it came. */
  lemma ViewMatches(t: State, cut: bytes)
    requires Inv(t) && cut <= t.link.wire
    ensures AllFit(t.link.frames)
    ensures ViewOf(cut).code.Some? <==> Scan(t.link.frames).Over? && cut == EncodeAll(t.link.frames)
    ensures ViewOf(cut).code.Some? ==> Matches(t.link.frames, ViewOf(cut))
  {
    StreamIsGood(CoreOf(t));
    FarEnd(t.link, cut);
    var fs, got := t.link.frames, ReadAll(cut).frames;
    assert got == fs[..|got|];
    ScanPrefix(fs, |got|);
    ViewOfStream(got);
    if Scan(got).Over? {
      assert got == fs;
      FarEndAll(t.link, cut);
    } else if cut == EncodeAll(fs) {
      ReadAllEncoded(fs);
    }
  }

  /** For a process that ran, the code is its own exit status; the client's
      answer 124 then means a lost connection unless the process itself
      exited with 124. */
  lemma OwnStatus(start: State, es: seq<Event>, t: State, cut: bytes)
    requires IsStart(start) && Reaches(start, es, t) && cut <= t.link.wire
    requires Ran(CoreOf(t))
    ensures ViewOf(cut).code.Some? ==>
              t.proc.ended.Some? && Outcome(ViewOf(cut)) == ExitStatus(t.proc.ended.value)
    ensures Outcome(ViewOf(cut)) == EXIT_DISCONNECTED <==>
              ViewOf(cut).code.None? || t.proc.ended == Some(Exited(124))
  {
    ExitIsUnambiguous(start, es, t, cut);
    if ViewOf(cut).code.Some? {
      CodeIsStatus(start, es, t);
      var how := t.proc.ended.value;
      assert ExitStatus(how) == 124 <==> how == Exited(124);
    }
  }

  /** Once the exit frame of a process that ran is on the stream, the code in it
      is the process's own. */
  lemma CodeIsStatus(start: State, es: seq<Event>, t: State)
    requires IsStart(start) && Reaches(start, es, t)
    requires Ran(CoreOf(t)) && Scan(t.link.frames).Over?
    ensures t.proc.ended.Some? && t.code == ExitStatus(t.proc.ended.value)
  {
    StartInv(start);
    CodeRun(start, start, es, t);
    StreamIsGood(CoreOf(t));
  }
}
