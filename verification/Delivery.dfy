/** What every reachable state of a run keeps: how much of the process's output
    has been framed, and which frame may come next. */
module Delivery {
  import opened Prelude
  import opened Frames
  import opened SharedLink
  import opened AgentRun

  // ---- The stream grammar: (Stdout|Stderr)* (OutTar* OutEnd)? Exit ----

  /** tree says whether an OutTar frame has been seen. */
  datatype Phase = Streaming | TreeOpen | TreeClosed(tree: bool) | Over(tree: bool) | Bad

  function Advance(p: Phase, kind: byte): Phase {
    match p
    case Streaming =>
      if kind == STDOUT || kind == STDERR then Streaming
      else if kind == OUT_TAR then TreeOpen
      else if kind == OUT_END then TreeClosed(false)
      else if kind == EXIT then Over(false)
      else Bad
    case TreeOpen =>
      if kind == OUT_TAR then TreeOpen else if kind == OUT_END then TreeClosed(true) else Bad
    case TreeClosed(tree) => if kind == EXIT then Over(tree) else Bad
    case _ => Bad
  }

  function Scan(fs: seq<Frame>): Phase {
    if fs == [] then Streaming else Advance(Scan(fs[..|fs| - 1]), fs[|fs| - 1].kind)
  }

  lemma Snoc(fs: seq<Frame>, f: Frame)
    ensures Scan(fs + [f]) == Advance(Scan(fs), f.kind)
    ensures Payloads(fs + [f], f.kind) == Payloads(fs, f.kind) + f.payload
    ensures forall kind: byte :: kind != f.kind ==> Payloads(fs + [f], kind) == Payloads(fs, kind)
  {
    assert (fs + [f])[..|fs|] == fs;
    PayloadsSnoc(fs, f);
  }

  /** A grammatical stream has only grammatical prefixes, and nothing follows
      the exit frame. */
  lemma {:induction false} ScanPrefix(fs: seq<Frame>, k: nat)
    requires k <= |fs| && Scan(fs) != Bad
    ensures Scan(fs[..k]) != Bad
    ensures k < |fs| ==> !Scan(fs[..k]).Over?
    decreases |fs| - k
  {
    if k < |fs| {
      assert fs[..k + 1] == fs[..k] + [fs[k]];
      Snoc(fs[..k], fs[k]);
      ScanPrefix(fs, k + 1);
    } else {
      assert fs[..k] == fs;
    }
  }

  predicate Stdio(fs: seq<Frame>) {
    forall i :: 0 <= i < |fs| ==> fs[i].kind == STDOUT || fs[i].kind == STDERR
  }

  predicate OutTars(fs: seq<Frame>) {
    forall i :: 0 <= i < |fs| ==> fs[i].kind == OUT_TAR
  }

  ghost predicate SessionParts(fs: seq<Frame>, io: seq<Frame>, tars: seq<Frame>, end: seq<Frame>, exit: seq<Frame>) {
    && fs == io + tars + end + exit
    && Stdio(io) && OutTars(tars)
    && |end| <= 1 && (end != [] ==> end[0].kind == OUT_END)
    && |exit| <= 1 && (exit != [] ==> exit[0].kind == EXIT && (tars != [] ==> end != []))
  }

  /** fs is a prefix of a word of (Stdout|Stderr)* (OutTar* OutEnd)? Exit. */
  ghost predicate PrefixOfSession(fs: seq<Frame>) {
    exists io, tars, end, exit :: SessionParts(fs, io, tars, end, exit)
  }

  /** The automaton only accepts words of the grammar. */
  lemma {:induction false} ScanSound(fs: seq<Frame>)
    returns (io: seq<Frame>, tars: seq<Frame>, end: seq<Frame>, exit: seq<Frame>)
    requires Scan(fs) != Bad
    ensures SessionParts(fs, io, tars, end, exit) && PartsMatch(Scan(fs), tars, end, exit)
    decreases |fs|
  {
    if fs == [] {
      io, tars, end, exit := [], [], [], [];
    } else {
      var init, f := fs[..|fs| - 1], fs[|fs| - 1];
      assert fs == init + [f];
      io, tars, end, exit := ScanSound(init);
      io, tars, end, exit := ExtendParts(Scan(init), init, f, io, tars, end, exit);
    }
  }

  predicate PartsMatch(p: Phase, tars: seq<Frame>, end: seq<Frame>, exit: seq<Frame>) {
    match p
    case Streaming => tars == [] && end == [] && exit == []
    case TreeOpen => tars != [] && end == [] && exit == []
    case TreeClosed(_) => end != [] && exit == []
    case Over(_) => exit != []
    case Bad => false
  }

  lemma ExtendParts(p: Phase, fs: seq<Frame>, f: Frame,
                    io: seq<Frame>, tars: seq<Frame>, end: seq<Frame>, exit: seq<Frame>)
    returns (io': seq<Frame>, tars': seq<Frame>, end': seq<Frame>, exit': seq<Frame>)
    requires SessionParts(fs, io, tars, end, exit) && PartsMatch(p, tars, end, exit)
    requires Advance(p, f.kind) != Bad
    ensures SessionParts(fs + [f], io', tars', end', exit')
    ensures PartsMatch(Advance(p, f.kind), tars', end', exit')
  {
    io', tars', end', exit' := io, tars, end, exit;
    if f.kind == OUT_TAR {
      tars' := tars + [f];
    } else if f.kind == OUT_END {
      end' := [f];
    } else if f.kind == EXIT {
      exit' := [f];
    } else {
      io' := io + [f];
    }
    assert fs + [f] == io' + tars' + end' + exit';
  }

  // ---- The invariant ----

  /** The part of a state the invariant speaks about. */
  datatype Core = Core(
    link: Link<Thread>, outPump: Pump, errPump: Pump, out: Pipe, err: Pipe, main: Main,
    mirror: Option<bytes>, code: int, notice: bytes, finished: bool, sync: bool)

  function CoreOf(s: State): Core {
    Core(s.link, s.outPump, s.errPump, s.proc.out, s.proc.err, s.main,
         s.mirror, s.code, s.notice, s.finished, s.sync)
  }

  predicate Ran(c: Core) {
    c.outPump != Finished(NeverRan)
  }

  /** Who may hold the frame writer's lock, and what the two modes of a run allow. */
  ghost predicate RolesOk(c: Core) {
    && (c.link.holder == Held(OutPump) ==> c.outPump.Sending?)
    && (c.link.holder == Held(ErrPump) ==> c.errPump.Sending?)
    && (c.link.holder == Held(Waiter) ==> MainWrites(c.main))
    && c.link.holder != Held(Reader) && c.link.holder != Held(Timer)
    && (Ran(c) ==> c.notice == [] && !c.main.Refusing? && c.errPump != Finished(NeverRan))
    && (!Ran(c) ==> c.errPump == Finished(NeverRan) && c.mirror.None?
                    && (c.main.Refusing? || c.main.Exiting? || c.main.Returned?))
    && (!c.main.Pumping? ==> c.outPump.Finished? && c.errPump.Finished?)
  }

  /** Output accounting for one side: everything the pump took from the pipe is
      framed, except the chunk in its hand; only a dead link loses a chunk. */
  ghost predicate SideOk(link: Link<Thread>, me: Thread, framed: bytes, p: Pipe, pump: Pump, notice: bytes) {
    match pump
    case Reading => framed == p.taken
    case Holding(chunk, last) =>
      && framed + chunk == p.taken && |chunk| <= PUMP_BUF
      && (last ==> p.closed && p.buffered == [])
    case Sending(last) =>
      && framed == p.taken && link.holder == Held(me)
      && (last ==> p.closed && p.buffered == [])
    case PumpKills => framed <= p.taken && link.broken
    case Finished(AtEof) => framed == p.taken && p.closed && p.buffered == []
    case Finished(WriteFailed) => framed <= p.taken && link.broken
    case Finished(NeverRan) => p == Pipe([], [], true) && framed <= notice
  }

  ghost predicate SideOf(c: Core, side: Side) {
    if side.Out? then SideOk(c.link, OutPump, Payloads(c.link.frames, STDOUT), c.out, c.outPump, [])
    else SideOk(c.link, ErrPump, Payloads(c.link.frames, STDERR), c.err, c.errPump, c.notice)
  }

  ghost predicate SidesOk(c: Core) {
    SideOf(c, Out) && SideOf(c, Err)
  }

  function MirrorBytes(c: Core): bytes {
    if c.mirror.Some? then c.mirror.value else []
  }

  ghost predicate NoticeSent(c: Core) {
    !Ran(c) && Fits(Frame(STDERR, c.notice)) ==> Payloads(c.link.frames, STDERR) == c.notice
  }

  /** Everything that must precede the exit frame has been framed. */
  ghost predicate Settled(c: Core) {
    && Scan(c.link.frames) == (if c.mirror.Some? then TreeClosed(c.mirror.value != []) else Streaming)
    && Payloads(c.link.frames, OUT_TAR) == MirrorBytes(c)
    && NoticeSent(c)
  }

  /** The exit frame is on the stream: nothing the client should get is missing. */
  ghost predicate Complete(c: Core) {
    && (c.main.Exiting? || c.main.Returned?)
    && c.link.frames != [] && c.link.frames[|c.link.frames| - 1] == ExitFrame(c.code)
    && Scan(c.link.frames) == Over(MirrorBytes(c) != [])
    && Payloads(c.link.frames, OUT_TAR) == MirrorBytes(c)
    && NoticeSent(c)
    && c.outPump.Finished? && c.outPump.end != WriteFailed
    && c.errPump.Finished? && c.errPump.end != WriteFailed
  }

  ghost predicate MainOk(c: Core) {
    var phase := Scan(c.link.frames);
    var tars := Payloads(c.link.frames, OUT_TAR);
    var writing := c.link.holder == Held(Waiter);
    && phase != Bad
    && (phase.Over? ==> Complete(c))
    && (c.mirror.Some? ==> c.finished && c.sync)
    && match c.main
       case Refusing =>
         phase.Streaming? && Payloads(c.link.frames, STDERR) == (if writing then c.notice else []) && tars == []
       case Mirroring(chunks) =>
         && c.mirror.Some? && Chunks(chunks)
         && (if !writing then
               (if tars == [] then phase.Streaming? else phase.TreeOpen?) && tars + Flatten(chunks) == c.mirror.value
             else if chunks == [] then phase == TreeClosed(tars != []) && tars == c.mirror.value
             else phase.TreeOpen? && tars != [] && tars + Flatten(chunks[1..]) == c.mirror.value)
       case Exiting => if writing then phase.Over? else !phase.Over? && (c.link.broken || Settled(c))
       case Returned => phase.Over? || c.link.broken
       case _ => phase.Streaming? && tars == [] && c.mirror.None?
  }

  /** The parts of the invariant. */
  datatype Part = TheLink | TheRoles | TheSides | TheWaiter

  ghost predicate Holds(c: Core, part: Part) {
    match part
    case TheLink => LinkOk(c.link)
    case TheRoles => RolesOk(c)
    case TheSides => SidesOk(c)
    case TheWaiter => MainOk(c)
  }

  ghost predicate CoreInv(c: Core) {
    forall part: Part :: Holds(c, part)
  }

  lemma Parts(c: Core)
    requires CoreInv(c)
    ensures LinkOk(c.link) && RolesOk(c) && SidesOk(c) && MainOk(c)
  {
    assert Holds(c, TheLink) && Holds(c, TheRoles) && Holds(c, TheSides) && Holds(c, TheWaiter);
  }

  lemma RolesHold(c: Core)
    requires CoreInv(c)
    ensures RolesOk(c)
  {
    assert Holds(c, TheRoles);
  }

  lemma SideHolds(c: Core, side: Side)
    requires CoreInv(c)
    ensures SideOf(c, side)
  {
    assert Holds(c, TheSides);
  }

  lemma LinkHolds(c: Core)
    requires CoreInv(c)
    ensures LinkOk(c.link)
  {
    assert Holds(c, TheLink);
  }

  lemma Whole(c: Core)
    requires LinkOk(c.link) && RolesOk(c) && SidesOk(c) && MainOk(c)
    ensures CoreInv(c)
  {
  }

  ghost predicate Inv(s: State) {
    CoreInv(CoreOf(s))
  }

  lemma StartInv(s: State)
    requires IsStart(s)
    ensures Inv(s)
  {
    Whole(CoreOf(s));
  }

  // ---- What one part of the invariant needs of a step ----

  /** One side's pump and pipe, and the lock if that pump is inside a write. */
  ghost predicate SideLeft(c: Core, d: Core, side: Side) {
    && (if side.Out? then d.outPump == c.outPump && d.out == c.out
        else d.errPump == c.errPump && d.err == c.err && d.notice == c.notice)
    && Payloads(d.link.frames, KindOf(side)) == Payloads(c.link.frames, KindOf(side))
    && (c.link.broken ==> d.link.broken)
    && (c.link.holder == Held(PumpOf(side)) ==> d.link.holder == c.link.holder)
  }

  lemma SideStays(c: Core, d: Core, side: Side)
    requires SideOf(c, side) && SideLeft(c, d, side)
    ensures SideOf(d, side)
  {
  }

  function Other(side: Side): Side {
    if side.Out? then Err else Out
  }

  lemma SidesStep(c: Core, d: Core, side: Side)
    requires SidesOk(c) && SideOf(d, side) && SideLeft(c, d, Other(side))
    ensures SidesOk(d)
  {
    SideStays(c, d, Other(side));
  }

  /** What the waiter's part speaks about, but for pumps still running. */
  ghost predicate MainLeft(c: Core, d: Core) {
    && d.link.frames == c.link.frames && (c.link.broken ==> d.link.broken)
    && (d.link.holder == Held(Waiter) <==> c.link.holder == Held(Waiter))
    && d.main == c.main && d.mirror == c.mirror && d.code == c.code && d.notice == c.notice
    && d.finished == c.finished && d.sync == c.sync && Ran(d) == Ran(c)
    && (c.outPump.Finished? ==> d.outPump == c.outPump)
    && (c.errPump.Finished? ==> d.errPump == c.errPump)
  }

  lemma MainStays(c: Core, d: Core)
    requires MainOk(c) && MainLeft(c, d)
    ensures MainOk(d)
  {
    if Scan(c.link.frames).Over? {
      CompleteStays(c, d);
    }
  }

  lemma CompleteStays(c: Core, d: Core)
    requires Complete(c) && MainLeft(c, d)
    ensures Complete(d)
  {
  }

  // ---- Preservation, by group of steps ----

  /** Steps that leave the stream, the pumps and the waiter alone. */
  lemma AsideSteps(s: State, e: Event)
    requires Enabled(s, e)
    requires e.Arrive? || e.HangUp? || e.ProcEnds? || e.ProcReads? || e.ProcClosesStdin?
          || e.TimerKills? || e.TimerQuits? || e.ReadClient? || e.FeedStdin? || e.StdinFails?
    ensures CoreOf(Step(s, e)) == CoreOf(s)
  {
    if e.ReadClient? {
      ReadOneKeeps(s);
    } else if e.FeedStdin? || e.StdinFails? {
      FeedAside(s, e);
    } else {
      assert Step(s, e).proc.out == s.proc.out && Step(s, e).proc.err == s.proc.err;
    }
  }

  lemma FeedAside(s: State, e: Event)
    requires Enabled(s, e) && (e.FeedStdin? || e.StdinFails?)
    ensures CoreOf(Step(s, e)) == CoreOf(s)
  {
  }

  /** The link changes under everyone, the lock staying where it is. */
  lemma LinkChanges(c: Core, d: Core)
    requires CoreInv(c) && LinkOk(d.link) && d == c.(link := d.link)
    requires d.link.frames == c.link.frames && d.link.holder == c.link.holder && (c.link.broken ==> d.link.broken)
    ensures CoreInv(d)
  {
    Parts(c);
    SideStays(c, d, Out);
    SideStays(c, d, Err);
    MainStays(c, d);
    Whole(d);
  }

  lemma LinkDiesInv(s: State)
    requires Inv(s)
    ensures Inv(Step(s, LinkDies))
  {
    Parts(CoreOf(s));
    LinkChanges(CoreOf(s), CoreOf(Step(s, LinkDies)));
  }

  lemma AcceptInv(s: State, k: nat)
    requires Inv(s) && Enabled(s, Accept(k))
    ensures Inv(Step(s, Accept(k)))
  {
    Parts(CoreOf(s));
    PushOk(s.link, k);
    LinkChanges(CoreOf(s), CoreOf(Step(s, Accept(k))));
  }

  /** A core with one side's pump and pipe, and the link, replaced. */
  function Replaced(c: Core, side: Side, link: Link<Thread>, p: Pipe, pump: Pump): Core {
    if side.Out? then c.(link := link, out := p, outPump := pump)
    else c.(link := link, err := p, errPump := pump)
  }

  function CorePump(c: Core, side: Side): Pump {
    if side.Out? then c.outPump else c.errPump
  }

  function CorePipe(c: Core, side: Side): Pipe {
    if side.Out? then c.out else c.err
  }

  lemma ReplacedRoles(c: Core, side: Side, link: Link<Thread>, p: Pipe, pump: Pump)
    requires RolesOk(c)
    requires CorePump(c, side) == pump || !CorePump(c, side).Finished?
    requires pump != Finished(NeverRan) || CorePump(c, side) == pump
    requires link.holder == c.link.holder || link.holder.Free? || (link.holder == Held(PumpOf(side)) && pump.Sending?)
    requires link.holder == Held(PumpOf(side)) ==> pump.Sending?
    ensures RolesOk(Replaced(c, side, link, p, pump))
  {
  }

  lemma ReplacedSides(c: Core, side: Side, link: Link<Thread>, p: Pipe, pump: Pump)
    requires SidesOk(c) && SideOf(Replaced(c, side, link, p, pump), side)
    requires link.frames == c.link.frames && (c.link.broken ==> link.broken)
    requires link.holder == c.link.holder || c.link.holder == Held(PumpOf(side))
    ensures SidesOk(Replaced(c, side, link, p, pump))
  {
    SidesStep(c, Replaced(c, side, link, p, pump), side);
  }

  lemma ReplacedMain(c: Core, side: Side, link: Link<Thread>, p: Pipe, pump: Pump)
    requires MainOk(c) && link.frames == c.link.frames && (c.link.broken ==> link.broken)
    requires link.holder == c.link.holder || (link.holder.Free? && c.link.holder == Held(PumpOf(side)))
    requires CorePump(c, side) == pump || (!CorePump(c, side).Finished? && pump != Finished(NeverRan))
    ensures MainOk(Replaced(c, side, link, p, pump))
  {
    MainStays(c, Replaced(c, side, link, p, pump));
  }

  /** One side moves on, and no frame begins. */
  lemma SideMoves(c: Core, side: Side, link: Link<Thread>, p: Pipe, pump: Pump)
    requires CoreInv(c) && LinkOk(link) && link.frames == c.link.frames && (c.link.broken ==> link.broken)
    requires link.holder == c.link.holder || (link.holder.Free? && c.link.holder == Held(PumpOf(side)))
    requires CorePump(c, side) == pump || (!CorePump(c, side).Finished? && pump != Finished(NeverRan))
    requires link.holder == Held(PumpOf(side)) ==> pump.Sending?
    requires SideOf(Replaced(c, side, link, p, pump), side)
    ensures CoreInv(Replaced(c, side, link, p, pump))
  {
    var d := Replaced(c, side, link, p, pump);
    Parts(c);
    ReplacedRoles(c, side, link, p, pump);
    ReplacedSides(c, side, link, p, pump);
    ReplacedMain(c, side, link, p, pump);
    Whole(d);
  }

  lemma ProcWritesInv(s: State, side: Side, data: bytes)
    requires Inv(s) && Enabled(s, ProcWrites(side, data))
    ensures Inv(Step(s, ProcWrites(side, data)))
  {
    var p, c := GetPipe(s, side), CoreOf(s);
    var q := p.(buffered := p.buffered + data);
    Parts(c);
    PipeGrows(c, side, q);
    SideMoves(c, side, s.link, q, GetPump(s, side));
    assert CoreOf(Step(s, ProcWrites(side, data))) == Replaced(c, side, s.link, q, GetPump(s, side));
  }

  /** Nothing is read yet of what the process writes; an ended pipe stays as it is. */
  lemma PipeGrows(c: Core, side: Side, q: Pipe)
    requires SidesOk(c)
    requires var p := CorePipe(c, side); q.taken == p.taken && (p.closed ==> q == p)
    ensures SideOf(Replaced(c, side, c.link, q, CorePump(c, side)), side)
  {
  }

  lemma ProcClosesInv(s: State, side: Side)
    requires Inv(s)
    ensures Inv(Step(s, ProcCloses(side)))
  {
    var p, c := GetPipe(s, side), CoreOf(s);
    var q := p.(closed := true);
    Parts(c);
    PipeGrows(c, side, q);
    SideMoves(c, side, s.link, q, GetPump(s, side));
    assert CoreOf(Step(s, ProcCloses(side))) == Replaced(c, side, s.link, q, GetPump(s, side));
  }

  /** What one Read leaves the pump with. */
  function ReadPump(p: Pipe, n: nat, eof: bool): Pump
    requires n <= |p.buffered|
  {
    if n > 0 then Holding(p.buffered[..n], eof) else Finished(AtEof)
  }

  function ReadPipe(p: Pipe, n: nat): Pipe
    requires n <= |p.buffered|
  {
    Pipe(p.taken + p.buffered[..n], p.buffered[n..], p.closed)
  }

  lemma SideReads(c: Core, side: Side, n: nat, eof: bool)
    requires SideOf(c, side) && CorePump(c, side).Reading?
    requires var p := CorePipe(c, side);
             n <= |p.buffered| && n <= PUMP_BUF && (n > 0 || eof) && (eof ==> p.closed && n == |p.buffered|)
    ensures var p := CorePipe(c, side);
            SideOf(Replaced(c, side, c.link, ReadPipe(p, n), ReadPump(p, n, eof)), side)
  {
    var p := CorePipe(c, side);
    assert p.taken + p.buffered[..0] == p.taken;
  }

  lemma PumpReadInv(s: State, side: Side, n: nat, eof: bool)
    requires Inv(s) && Enabled(s, PumpRead(side, n, eof))
    ensures Inv(Step(s, PumpRead(side, n, eof)))
  {
    var p, c := GetPipe(s, side), CoreOf(s);
    Parts(c);
    SideReads(c, side, n, eof);
    SideMoves(c, side, s.link, ReadPipe(p, n), ReadPump(p, n, eof));
    PumpReadIs(s, side, n, eof);
  }

  lemma PumpReadIs(s: State, side: Side, n: nat, eof: bool)
    requires Enabled(s, PumpRead(side, n, eof))
    ensures var p := GetPipe(s, side);
            CoreOf(Step(s, PumpRead(side, n, eof)))
            == Replaced(CoreOf(s), side, s.link, ReadPipe(p, n), ReadPump(p, n, eof))
  {
  }

  lemma SideWrote(c: Core, side: Side, last: bool)
    requires SideOf(c, side) && CorePump(c, side) == Sending(last)
    ensures SideOf(Replaced(c, side, Unlock(c.link), CorePipe(c, side),
                            if last then Finished(AtEof) else Reading), side)
  {
  }

  lemma PumpWroteInv(s: State, side: Side)
    requires Inv(s) && Enabled(s, PumpWrote(side))
    ensures Inv(Step(s, PumpWrote(side)))
  {
    var last, c := GetPump(s, side).last, CoreOf(s);
    var pump := if last then Finished(AtEof) else Reading;
    Parts(c);
    UnlockOk(s.link, PumpOf(side));
    SideWrote(c, side, last);
    SideMoves(c, side, Unlock(s.link), GetPipe(s, side), pump);
    PumpWroteIs(s, side);
  }

  lemma PumpWroteIs(s: State, side: Side)
    requires Enabled(s, PumpWrote(side))
    ensures CoreOf(Step(s, PumpWrote(side)))
         == Replaced(CoreOf(s), side, Unlock(s.link), GetPipe(s, side),
                     if GetPump(s, side).last then Finished(AtEof) else Reading)
  {
  }

  lemma SideFails(c: Core, side: Side, link: Link<Thread>)
    requires SideOf(c, side) && (CorePump(c, side).Sending? || CorePump(c, side).Holding?)
    requires link.frames == c.link.frames && link.broken
    ensures SideOf(Replaced(c, side, link, CorePipe(c, side), PumpKills), side)
  {
  }

  lemma PumpFailsInv(s: State, side: Side)
    requires Inv(s) && Enabled(s, PumpFails(side))
    ensures Inv(Step(s, PumpFails(side)))
  {
    var p, c := GetPipe(s, side), CoreOf(s);
    var link := if GetPump(s, side).Sending? then Unlock(s.link) else s.link;
    Parts(c);
    if GetPump(s, side).Sending? {
      UnlockOk(s.link, PumpOf(side));
    }
    SideFails(c, side, link);
    SideMoves(c, side, link, p, PumpKills);
    assert CoreOf(Step(s, PumpFails(side))) == Replaced(c, side, link, p, PumpKills);
  }

  lemma PumpBeginsInv(s: State, side: Side)
    requires Inv(s) && Enabled(s, PumpBegins(side))
    ensures Inv(Step(s, PumpBegins(side)))
  {
    var pump := GetPump(s, side);
    PumpFrame(CoreOf(s), side, pump.chunk, pump.last);
    assert CoreOf(Step(s, PumpBegins(side)))
        == Replaced(CoreOf(s), side, Begin(s.link, PumpOf(side), Frame(KindOf(side), pump.chunk)),
                    GetPipe(s, side), Sending(pump.last));
  }

  lemma PumpFrame(c: Core, side: Side, chunk: bytes, last: bool)
    requires CoreInv(c) && CorePump(c, side) == Holding(chunk, last) && CanBegin(c.link, Frame(KindOf(side), chunk))
    ensures CoreInv(Replaced(c, side, Begin(c.link, PumpOf(side), Frame(KindOf(side), chunk)),
                             CorePipe(c, side), Sending(last)))
  {
    var f := Frame(KindOf(side), chunk);
    var link := Begin(c.link, PumpOf(side), f);
    var d := Replaced(c, side, link, CorePipe(c, side), Sending(last));
    Parts(c);
    BeginOk(c.link, PumpOf(side), f);
    Snoc(c.link.frames, f);
    ReplacedRoles(c, side, link, CorePipe(c, side), Sending(last));
    assert SideOf(c, side);
    assert SideOf(d, side);
    SidesStep(c, d, side);
    PumpFrameMain(c, d, f);
    Whole(d);
  }

  /** While a pump runs, the stream has only stdio. */
  lemma PumpFrameMain(c: Core, d: Core, f: Frame)
    requires RolesOk(c) && MainOk(c) && !(c.outPump.Finished? && c.errPump.Finished?)
    requires (f.kind == STDOUT || f.kind == STDERR) && d.link.frames == c.link.frames + [f]
    requires d.main == c.main && d.mirror == c.mirror && d.finished == c.finished && d.sync == c.sync
    ensures MainOk(d)
  {
    Snoc(c.link.frames, f);
    assert c.main.Pumping?;
  }

  /** A thread that leaves kill() was there because its write had failed. */
  lemma KillReturnsInv(c: Core, s: State, t: Thread)
    requires Kills(s, t) && CoreInv(c) && c == CoreOf(s)
    ensures CoreInv(CoreOf(KillReturns(s, t)))
  {
    if t.Reader? {
      assert CoreOf(KillReturns(s, t)) == c;
    } else {
      var side := if t.OutPump? then Out else Err;
      PumpGivesUp(c, side);
      assert CoreOf(KillReturns(s, t)) == Replaced(c, side, c.link, CorePipe(c, side), Finished(WriteFailed));
    }
  }

  lemma PumpGivesUp(c: Core, side: Side)
    requires CoreInv(c) && CorePump(c, side).PumpKills?
    ensures CoreInv(Replaced(c, side, c.link, CorePipe(c, side), Finished(WriteFailed)))
  {
    Parts(c);
    assert SideOf(c, side);
    SideMoves(c, side, c.link, CorePipe(c, side), Finished(WriteFailed));
  }

  lemma KillCheckInv(s: State, t: Thread)
    requires Inv(s) && Enabled(s, KillCheck(t))
    ensures Inv(Step(s, KillCheck(t)))
  {
    var u := s.(kill := s.kill.(once := Spent));
    KillReturnsInv(CoreOf(s), u, t);
    assert CoreOf(s.(kill := s.kill.(once := Committed(t)))) == CoreOf(s);
  }

  lemma KillSignalInv(s: State, t: Thread)
    requires Inv(s) && Enabled(s, KillSignal(t))
    ensures Inv(Step(s, KillSignal(t)))
  {
    KillReturnsInv(CoreOf(s), s.(kill := Kill(Spent, Armed, s.kill.sigints + 1, s.kill.sigkills)), t);
  }

  /** The waiter moves on without touching the link. */
  lemma WaiterTurns(c: Core, d: Core)
    requires CoreInv(c) && RolesOk(d) && MainOk(d)
    requires d.link == c.link && d.notice == c.notice
    requires d.outPump == c.outPump && d.errPump == c.errPump && d.out == c.out && d.err == c.err
    ensures CoreInv(d)
  {
    Parts(c);
    SideStays(c, d, Out);
    SideStays(c, d, Err);
    Whole(d);
  }

  lemma PumpsDoneInv(s: State)
    requires Inv(s) && Enabled(s, PumpsDone)
    ensures Inv(Step(s, PumpsDone))
  {
    Parts(CoreOf(s));
    WaiterTurns(CoreOf(s), CoreOf(Step(s, PumpsDone)));
  }

  lemma ReapInv(s: State)
    requires Inv(s) && Enabled(s, Reap)
    ensures Inv(Step(s, Reap))
  {
    Parts(CoreOf(s));
    WaiterTurns(CoreOf(s), CoreOf(Step(s, Reap)));
  }

  lemma FinishInv(s: State, tree: Option<seq<bytes>>)
    requires Inv(s) && Enabled(s, Finish(tree))
    ensures Inv(Step(s, Finish(tree)))
  {
    FinishCore(CoreOf(s), s.sync, tree);
    assert CoreOf(Step(s, Finish(tree))) == AfterFinish(CoreOf(s), tree);
  }

  function AfterFinish(c: Core, tree: Option<seq<bytes>>): Core {
    if tree.None? then c.(finished := true, main := Exiting)
    else c.(finished := true, main := Mirroring(tree.value), mirror := Some(Flatten(tree.value)))
  }

  lemma FinishCore(c: Core, sync: bool, tree: Option<seq<bytes>>)
    requires CoreInv(c) && c.main.Reaped? && c.sync == sync && (tree.Some? ==> sync && Chunks(tree.value))
    ensures CoreInv(AfterFinish(c, tree))
  {
    Parts(c);
    WaiterTurns(c, AfterFinish(c, tree));
  }

  /** The waiter begins a frame: the pumps are idle, and only its part is new. */
  lemma WaiterBegins(c: Core, f: Frame)
    requires CoreInv(c) && MainWrites(c.main) && CanBegin(c.link, f)
    requires f.kind != STDOUT
    requires (f.kind == STDERR ==> !Ran(c) && Payloads(c.link.frames, STDERR) == [] && f.payload == c.notice)
    requires MainOk(c.(link := Begin(c.link, Waiter, f)))
    ensures CoreInv(c.(link := Begin(c.link, Waiter, f)))
  {
    var d := c.(link := Begin(c.link, Waiter, f));
    Parts(c);
    BeginOk(c.link, Waiter, f);
    Snoc(c.link.frames, f);
    SideStays(c, d, Out);
    if f.kind == STDERR {
      NoticeFramed(c, d);
    } else {
      SideStays(c, d, Err);
    }
    Whole(d);
  }

  lemma NoticeFramed(c: Core, d: Core)
    requires RolesOk(c) && SideOf(c, Err) && !Ran(c)
    requires d.errPump == c.errPump && d.err == c.err && d.notice == c.notice
    requires Payloads(d.link.frames, STDERR) == c.notice
    ensures SideOf(d, Err)
  {
  }

  lemma RefusalBegins(s: State)
    requires Inv(s) && Enabled(s, MainBegins) && s.main.Refusing?
    ensures Inv(Step(s, MainBegins))
  {
    RefusalCore(CoreOf(s));
  }

  lemma RefusalCore(c: Core)
    requires CoreInv(c) && c.main.Refusing? && CanBegin(c.link, Frame(STDERR, c.notice))
    ensures CoreInv(c.(link := Begin(c.link, Waiter, Frame(STDERR, c.notice))))
  {
    var f := Frame(STDERR, c.notice);
    Parts(c);
    Snoc(c.link.frames, f);
    assert [] + c.notice == c.notice;
    WaiterBegins(c, f);
  }

  lemma MirrorBegins(s: State)
    requires Inv(s) && Enabled(s, MainBegins) && s.main.Mirroring?
    ensures Inv(Step(s, MainBegins))
  {
    MirrorCore(CoreOf(s), s.main.chunks, MainFrame(s));
  }

  lemma MirrorCore(c: Core, chunks: seq<bytes>, f: Frame)
    requires CoreInv(c) && c.main == Mirroring(chunks) && CanBegin(c.link, f)
    requires f == (if chunks == [] then Frame(OUT_END, []) else Frame(OUT_TAR, chunks[0]))
    ensures CoreInv(c.(link := Begin(c.link, Waiter, f)))
  {
    Parts(c);
    MirrorMain(c, chunks, f);
    WaiterBegins(c, f);
  }

  lemma MirrorMain(c: Core, chunks: seq<bytes>, f: Frame)
    requires MainOk(c) && c.main == Mirroring(chunks) && CanBegin(c.link, f)
    requires f == (if chunks == [] then Frame(OUT_END, []) else Frame(OUT_TAR, chunks[0]))
    ensures MainOk(c.(link := Begin(c.link, Waiter, f)))
  {
    Snoc(c.link.frames, f);
    var tars := Payloads(c.link.frames, OUT_TAR);
    if chunks == [] {
      assert tars + Flatten(chunks) == tars;
    } else {
      assert tars + f.payload + Flatten(chunks[1..]) == tars + Flatten(chunks);
    }
  }

  lemma ExitBegins(s: State)
    requires Inv(s) && Enabled(s, MainBegins) && s.main.Exiting?
    ensures Inv(Step(s, MainBegins))
  {
    ExitCore(CoreOf(s));
  }

  lemma ExitCore(c: Core)
    requires CoreInv(c) && c.main.Exiting? && CanBegin(c.link, ExitFrame(c.code))
    ensures CoreInv(c.(link := Begin(c.link, Waiter, ExitFrame(c.code))))
  {
    Parts(c);
    ExitMain(c);
    WaiterBegins(c, ExitFrame(c.code));
  }

  lemma ExitMain(c: Core)
    requires RolesOk(c) && SidesOk(c) && MainOk(c) && c.main.Exiting? && CanBegin(c.link, ExitFrame(c.code))
    ensures MainOk(c.(link := Begin(c.link, Waiter, ExitFrame(c.code))))
  {
    var f := ExitFrame(c.code);
    var d := c.(link := Begin(c.link, Waiter, f));
    Snoc(c.link.frames, f);
    assert d.link.frames[|d.link.frames| - 1] == f;
    if Scan(d.link.frames).Over? {
      assert SideOf(c, Out) && SideOf(c, Err);
      assert Complete(d);
    }
  }

  /** The waiter lets go of the lock, and its part holds of what it does next. */
  lemma WaiterMoves(c: Core, main: Main, link: Link<Thread>)
    requires CoreInv(c) && MainWrites(c.main) && LinkOk(link)
    requires link.frames == c.link.frames && link.broken == c.link.broken && link.holder.Free?
    requires c.link.holder.Free? || c.link.holder == Held(Waiter)
    requires main.Exiting? || main.Returned? || (main.Mirroring? && c.main.Mirroring?)
    requires MainOk(c.(main := main, link := link))
    ensures CoreInv(c.(main := main, link := link))
  {
    var d := c.(main := main, link := link);
    Parts(c);
    SideStays(c, d, Out);
    SideStays(c, d, Err);
    Whole(d);
  }

  lemma MainWroteInv(s: State)
    requires Inv(s) && Enabled(s, MainWrote)
    ensures Inv(Step(s, MainWrote))
  {
    Parts(CoreOf(s));
    UnlockOk(s.link, Waiter);
    MainWroteMain(CoreOf(s));
    WaiterMoves(CoreOf(s), MainNext(s.main), Unlock(s.link));
  }

  lemma MainWroteMain(c: Core)
    requires RolesOk(c) && MainOk(c) && MainWrites(c.main) && c.link.holder == Held(Waiter)
    ensures MainOk(c.(main := MainNext(c.main), link := Unlock(c.link)))
  {
  }

  lemma MainFailsInv(s: State)
    requires Inv(s) && Enabled(s, MainFails)
    ensures Inv(Step(s, MainFails))
  {
    var link := if s.link.holder.Free? then s.link else Unlock(s.link);
    Parts(CoreOf(s));
    if !s.link.holder.Free? {
      UnlockOk(s.link, Waiter);
    }
    MainFailsMain(CoreOf(s), link, s.link.holder.Free? && !s.link.broken);
    WaiterMoves(CoreOf(s), if s.main.Exiting? then Returned else Exiting, link);
  }

  /** oversize: the one write that fails on a live link is that of a notice too
      long for a frame; nothing of it went out. */
  lemma MainFailsMain(c: Core, link: Link<Thread>, oversize: bool)
    requires RolesOk(c) && MainOk(c) && MainWrites(c.main)
    requires link.frames == c.link.frames && link.broken == c.link.broken && link.holder.Free?
    requires oversize || c.link.broken
    requires oversize ==> c.link.holder.Free? && c.main.Refusing? && !Fits(Frame(STDERR, c.notice))
    ensures MainOk(c.(main := if c.main.Exiting? then Returned else Exiting, link := link))
  {
  }

  lemma PumpStepInv(s: State, e: Event)
    requires Inv(s) && Enabled(s, e)
    requires PumpEvent(e)
    ensures Inv(Step(s, e))
  {
    match e
    case PumpRead(side, n, eof) => PumpReadInv(s, side, n, eof);
    case PumpBegins(side) => PumpBeginsInv(s, side);
    case PumpWrote(side) => PumpWroteInv(s, side);
    case PumpFails(side) => PumpFailsInv(s, side);
  }

  lemma KillStepInv(s: State, e: Event)
    requires Inv(s) && Enabled(s, e)
    requires KillEvent(e)
    ensures Inv(Step(s, e))
  {
    match e
    case KillCheck(t) => KillCheckInv(s, t);
    case KillSignal(t) => KillSignalInv(s, t);
    case KillPass(t) => KillReturnsInv(CoreOf(s), s, t);
  }

  lemma WaiterStepInv(s: State, e: Event)
    requires Inv(s) && Enabled(s, e)
    requires WaiterEvent(e)
    ensures Inv(Step(s, e))
  {
    match e
    case PumpsDone => PumpsDoneInv(s);
    case Reap => ReapInv(s);
    case Finish(tree) => FinishInv(s, tree);
    case MainBegins =>
      match s.main {
        case Refusing => RefusalBegins(s);
        case Mirroring(_) => MirrorBegins(s);
        case Exiting => ExitBegins(s);
      }
    case MainWrote => MainWroteInv(s);
    case MainFails => MainFailsInv(s);
  }

  lemma OutsideStepInv(s: State, e: Event)
    requires Inv(s) && Enabled(s, e)
    requires e.LinkDies? || e.Accept? || e.ProcWrites? || e.ProcCloses?
    ensures Inv(Step(s, e))
  {
    match e
    case LinkDies => LinkDiesInv(s);
    case Accept(k) => AcceptInv(s, k);
    case ProcWrites(side, data) => ProcWritesInv(s, side, data);
    case ProcCloses(side) => ProcClosesInv(s, side);
  }

  lemma StepInv(s: State, e: Event)
    requires Inv(s) && Enabled(s, e)
    ensures Inv(Step(s, e))
  {
    if PumpEvent(e) {
      PumpStepInv(s, e);
    } else if KillEvent(e) {
      KillStepInv(s, e);
    } else if WaiterEvent(e) {
      WaiterStepInv(s, e);
    } else if e.LinkDies? || e.Accept? || e.ProcWrites? || e.ProcCloses? {
      OutsideStepInv(s, e);
    } else {
      AsideSteps(s, e);
    }
  }

  lemma {:induction false} RunInv(s: State, es: seq<Event>, t: State)
    requires Inv(s) && Reaches(s, es, t)
    ensures Inv(t)
    decreases |es|
  {
    if es != [] {
      StepInv(s, es[0]);
      RunInv(Step(s, es[0]), es[1..], t);
    }
  }
}
