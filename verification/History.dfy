/** What the events of a run say of the state they lead to: the process's output
    and end, what the waiter decided, and the signals sent. */
module History {
  import opened Prelude
  import opened Frames
  import opened SharedLink
  import opened AgentRun
  import opened KillOnce
  import opened ReapSteps
  import opened ClientLoop
  import Delivery
  import ClientSees

  // ---- Read off the events ----

  /** Everything the process wrote to one side. */
  function WrittenTo(es: seq<Event>, side: Side): bytes {
    if es == [] then []
    else (if es[0].ProcWrites? && es[0].side == side then es[0].data else []) + WrittenTo(es[1..], side)
  }

  /** How the process ended, as the events tell. */
  function EndedBy(es: seq<Event>): Option<WaitResult> {
    if es == [] then None else if es[0].ProcEnds? then Some(es[0].how) else EndedBy(es[1..])
  }

  /** Whether the waiter closed `finished`, and with which tree to mirror back. */
  datatype Closing = Open | Closed(tree: Option<seq<bytes>>)

  function ClosedBy(es: seq<Event>): Closing {
    if es == [] then Open else if es[0].Finish? then Closed(es[0].tree) else ClosedBy(es[1..])
  }

  function CountInts(es: seq<Event>): nat {
    if es == [] then 0 else (if es[0].KillSignal? then 1 else 0) + CountInts(es[1..])
  }

  function CountKills(es: seq<Event>): nat {
    if es == [] then 0 else (if es[0].TimerKills? then 1 else 0) + CountKills(es[1..])
  }

  // ---- One step ----

  /** What one event does to all of that. */
  ghost predicate Noted(s: State, e: Event, t: State) {
    && (forall side: Side :: TextOf(GetPipe(t, side)) == TextOf(GetPipe(s, side)) + WrittenTo([e], side))
    && t.proc.ended == (if e.ProcEnds? then Some(e.how) else s.proc.ended)
    && t.finished == (s.finished || e.Finish?)
    && t.mirror == (if e.Finish? && e.tree.Some? then Some(Flatten(e.tree.value)) else s.mirror)
    && t.kill.sigints == s.kill.sigints + CountInts([e])
    && t.kill.sigkills == s.kill.sigkills + CountKills([e])
  }

  /** A step that writes nothing, ends nothing, finishes nothing and signals nothing. */
  ghost predicate Unnoted(s: State, t: State) {
    && (forall side: Side :: TextOf(GetPipe(t, side)) == TextOf(GetPipe(s, side)))
    && t.proc.ended == s.proc.ended && t.finished == s.finished && t.mirror == s.mirror
    && t.kill.sigints == s.kill.sigints && t.kill.sigkills == s.kill.sigkills
  }

  predicate Unremarkable(e: Event) {
    !e.ProcWrites? && !e.ProcEnds? && !e.Finish? && !e.KillSignal? && !e.TimerKills?
  }

  lemma UnnotedIsNoted(s: State, e: Event, t: State)
    requires Unnoted(s, t) && Unremarkable(e)
    ensures Noted(s, e, t)
  {
    forall side: Side ensures TextOf(GetPipe(t, side)) == TextOf(GetPipe(s, side)) + WrittenTo([e], side) {
      assert WrittenTo([e], side) == [] + WrittenTo([], side) == [];
    }
  }

  lemma ReadUnnoted(s: State, side: Side, n: nat, eof: bool)
    requires Enabled(s, PumpRead(side, n, eof))
    ensures Unnoted(s, Step(s, PumpRead(side, n, eof)))
  {
    var p, t := GetPipe(s, side), Step(s, PumpRead(side, n, eof));
    ReadTurns(s, side, n, eof);
    assert p.buffered == p.buffered[..n] + p.buffered[n..];
    Assoc(p.taken, p.buffered[..n], p.buffered[n..]);
    forall other: Side ensures TextOf(GetPipe(t, other)) == TextOf(GetPipe(s, other)) {
      assert other == side || GetPipe(t, other) == GetPipe(s, other);
    }
  }

  lemma BeginUnnoted(s: State, side: Side)
    requires Enabled(s, PumpBegins(side))
    ensures Unnoted(s, Step(s, PumpBegins(side)))
  {
    BeginTurns(s, side);
  }

  lemma WroteUnnoted(s: State, side: Side)
    requires Enabled(s, PumpWrote(side))
    ensures Unnoted(s, Step(s, PumpWrote(side)))
  {
    WroteTurns(s, side);
  }

  lemma FailUnnoted(s: State, side: Side)
    requires Enabled(s, PumpFails(side))
    ensures Unnoted(s, Step(s, PumpFails(side)))
  {
    FailTurns(s, side);
  }

  lemma PumpUnnoted(s: State, e: Event)
    requires Enabled(s, e) && PumpEvent(e)
    ensures Unnoted(s, Step(s, e))
  {
    match e
    case PumpRead(side, n, eof) => ReadUnnoted(s, side, n, eof);
    case PumpBegins(side) => BeginUnnoted(s, side);
    case PumpWrote(side) => WroteUnnoted(s, side);
    case PumpFails(side) => FailUnnoted(s, side);
  }

  lemma KillReturnUnnoted(s: State, t: Thread)
    ensures Unnoted(s, KillReturns(s, t))
  {
  }

  lemma KillNoted(s: State, e: Event)
    requires Enabled(s, e) && KillEvent(e)
    ensures Noted(s, e, Step(s, e))
  {
    match e
    case KillCheck(t) =>
      KillReturnUnnoted(s.(kill := s.kill.(once := Spent)), t);
      UnnotedIsNoted(s, e, Step(s, e));
    case KillSignal(t) =>
      KillReturnUnnoted(s.(kill := Kill(Spent, Armed, s.kill.sigints + 1, s.kill.sigkills)), t);
      SignalNoted(s, t);
    case KillPass(t) =>
      KillReturnUnnoted(s, t);
      UnnotedIsNoted(s, e, Step(s, e));
  }

  lemma SignalNoted(s: State, t: Thread)
    requires Enabled(s, KillSignal(t))
    requires Unnoted(s.(kill := Kill(Spent, Armed, s.kill.sigints + 1, s.kill.sigkills)), Step(s, KillSignal(t)))
    ensures Noted(s, KillSignal(t), Step(s, KillSignal(t)))
  {
    var e, u := KillSignal(t), Step(s, KillSignal(t));
    forall side: Side ensures TextOf(GetPipe(u, side)) == TextOf(GetPipe(s, side)) + WrittenTo([e], side) {
      assert WrittenTo([e], side) == [] + WrittenTo([], side) == [];
    }
    assert CountInts([e]) == 1 + CountInts([]);
    assert CountKills([e]) == 0 + CountKills([]);
  }

  lemma WaiterUnnoted(s: State, e: Event)
    requires Enabled(s, e) && WaiterEvent(e) && !e.Finish?
    ensures Unnoted(s, Step(s, e))
  {
  }

  /** The steps of these kinds change no pipe and no more than one of the rest. */
  lemma PlainNoted(s: State, e: Event)
    requires Enabled(s, e) && (e.Finish? || e.ProcEnds? || e.TimerKills?)
    ensures Noted(s, e, Step(s, e))
  {
    forall side: Side ensures TextOf(GetPipe(Step(s, e), side)) == TextOf(GetPipe(s, side)) + WrittenTo([e], side) {
      assert WrittenTo([e], side) == [] + WrittenTo([], side) == [];
    }
    assert CountInts([e]) == 0 + CountInts([]);
    assert CountKills([e]) == (if e.TimerKills? then 1 else 0) + CountKills([]);
  }

  lemma WriteNoted(s: State, side: Side, data: bytes)
    requires Enabled(s, ProcWrites(side, data))
    ensures Noted(s, ProcWrites(side, data), Step(s, ProcWrites(side, data)))
  {
    var e, t := ProcWrites(side, data), Step(s, ProcWrites(side, data));
    var p := GetPipe(s, side);
    Assoc(p.taken, p.buffered, data);
    forall other: Side ensures TextOf(GetPipe(t, other)) == TextOf(GetPipe(s, other)) + WrittenTo([e], other) {
      assert WrittenTo([e], other) == (if other == side then data else []) + WrittenTo([], other);
      assert other == side || GetPipe(t, other) == p || GetPipe(t, other) == GetPipe(s, other);
    }
    assert CountInts([e]) == 0 + CountInts([]);
    assert CountKills([e]) == 0 + CountKills([]);
  }

  lemma RestUnnoted(s: State, e: Event)
    requires Enabled(s, e) && !OwnEvent(e) && Unremarkable(e)
    ensures Unnoted(s, Step(s, e))
  {
    if e.ReadClient? {
      ReadOneKeeps(s);
    } else if e.FeedStdin? || e.StdinFails? || e.ProcReads? || e.ProcClosesStdin? {
      StdinUnnoted(s, e);
    } else if e.ProcCloses? {
      ClosesUnnoted(s, e.side);
    }
  }

  lemma StdinUnnoted(s: State, e: Event)
    requires Enabled(s, e) && (e.FeedStdin? || e.StdinFails? || e.ProcReads? || e.ProcClosesStdin?)
    ensures Unnoted(s, Step(s, e))
  {
  }

  lemma ClosesUnnoted(s: State, side: Side)
    ensures Unnoted(s, Step(s, ProcCloses(side)))
  {
  }

  lemma StepNoted(s: State, e: Event)
    requires Enabled(s, e)
    ensures Noted(s, e, Step(s, e))
  {
    if PumpEvent(e) {
      PumpUnnoted(s, e);
      UnnotedIsNoted(s, e, Step(s, e));
    } else if KillEvent(e) {
      KillNoted(s, e);
    } else if e.Finish? || e.ProcEnds? || e.TimerKills? {
      PlainNoted(s, e);
    } else if WaiterEvent(e) {
      WaiterUnnoted(s, e);
      UnnotedIsNoted(s, e, Step(s, e));
    } else if e.ProcWrites? {
      WriteNoted(s, e.side, e.data);
    } else {
      RestUnnoted(s, e);
      UnnotedIsNoted(s, e, Step(s, e));
    }
  }

  // ---- A run ----

  /** The state agrees with the events since start. */
  ghost predicate Told(s: State, es: seq<Event>, t: State) {
    && (forall side: Side :: TextOf(GetPipe(t, side)) == TextOf(GetPipe(s, side)) + WrittenTo(es, side))
    && (s.proc.ended.None? ==> t.proc.ended == EndedBy(es))
    && (!s.finished ==> (t.finished <==> ClosedBy(es).Closed?))
    && (!s.finished && s.mirror.None? ==> t.mirror == MirrorOf(ClosedBy(es)))
    && t.kill.sigints == s.kill.sigints + CountInts(es) && t.kill.sigkills == s.kill.sigkills + CountKills(es)
  }

  function MirrorOf(c: Closing): Option<bytes> {
    if c.Closed? && c.tree.Some? then Some(Flatten(c.tree.value)) else None
  }

  /** The process ends once, and the waiter finishes once. */
  lemma {:induction false} OnceOnly(s: State, es: seq<Event>, t: State)
    requires Reaches(s, es, t)
    ensures s.proc.ended.Some? ==> EndedBy(es).None? && t.proc.ended == s.proc.ended
    ensures s.finished && Past(s.main) ==> ClosedBy(es).Open? && t.finished && t.mirror == s.mirror
    decreases |es|
  {
    if es != [] {
      StepNoted(s, es[0]);
      PastStays(s, es[0]);
      OnceOnly(Step(s, es[0]), es[1..], t);
    }
  }

  /** The waiter is past finishing. */
  predicate Past(m: Main) {
    m.Mirroring? || m.Exiting? || m.Returned?
  }

  lemma PastStays(s: State, e: Event)
    requires Enabled(s, e)
    ensures Past(s.main) ==> Past(Step(s, e).main) && !e.Finish?
    ensures e.Finish? ==> Past(Step(s, e).main)
  {
    if PumpEvent(e) {
      PumpMain(s, e);
    } else if !WaiterEvent(e) && !KillEvent(e) {
      OthersLeave(s, e);
    }
  }

  lemma PumpMain(s: State, e: Event)
    requires Enabled(s, e) && PumpEvent(e)
    ensures Step(s, e).main == s.main
  {
  }

  lemma {:induction false} RunTold(s: State, es: seq<Event>, t: State)
    requires Reaches(s, es, t)
    ensures Told(s, es, t)
    decreases |es|
  {
    if es == [] {
      forall side: Side ensures TextOf(GetPipe(t, side)) == TextOf(GetPipe(s, side)) + WrittenTo(es, side) {
        assert WrittenTo(es, side) == [];
      }
    } else {
      var u := Step(s, es[0]);
      StepNoted(s, es[0]);
      PastStays(s, es[0]);
      RunTold(u, es[1..], t);
      OnceOnly(u, es[1..], t);
      TellOn(s, es, u, t);
    }
  }

  lemma TellOn(s: State, es: seq<Event>, u: State, t: State)
    requires es != [] && Noted(s, es[0], u) && Told(u, es[1..], t)
    requires u.proc.ended.Some? ==> t.proc.ended == u.proc.ended
    requires es[0].Finish? ==> t.finished && t.mirror == u.mirror
    ensures Told(s, es, t)
  {
    forall side: Side ensures TextOf(GetPipe(t, side)) == TextOf(GetPipe(s, side)) + WrittenTo(es, side) {
      var now, later := WrittenTo([es[0]], side), WrittenTo(es[1..], side);
      Assoc(TextOf(GetPipe(s, side)), now, later);
      HeadWritten(es, side);
    }
    HeadCounts(es);
  }

  lemma HeadCounts(es: seq<Event>)
    requires es != []
    ensures CountInts(es) == CountInts([es[0]]) + CountInts(es[1..])
    ensures CountKills(es) == CountKills([es[0]]) + CountKills(es[1..])
  {
    var none: seq<Event> := [];
    assert [es[0]][1..] == none && CountInts(none) == 0 && CountKills(none) == 0;
  }

  lemma HeadWritten(es: seq<Event>, side: Side)
    requires es != []
    ensures WrittenTo(es, side) == WrittenTo([es[0]], side) + WrittenTo(es[1..], side)
  {
    var none: seq<Event> := [];
    assert [es[0]][1..] == none && WrittenTo(none, side) == [];
    var head := if es[0].ProcWrites? && es[0].side == side then es[0].data else [];
    assert head + [] == head;
  }

  lemma {:induction false} ClosedIsEvent(es: seq<Event>)
    ensures ClosedBy(es).Closed? ==> Finish(ClosedBy(es).tree) in es
  {
    if es != [] && !es[0].Finish? {
      ClosedIsEvent(es[1..]);
    }
  }

  /** There is no second Finish event, with another tree. */
  lemma {:induction false} OneFinish(s: State, es: seq<Event>, t: State)
    requires Reaches(s, es, t)
    ensures forall tree :: Finish(tree) in es ==> ClosedBy(es) == Closed(tree) && !Past(s.main)
    decreases |es|
  {
    if es != [] {
      PastStays(s, es[0]);
      OneFinish(Step(s, es[0]), es[1..], t);
    }
  }

  // ---- Main results ----

  /** The trees a client must have applied when the waiter finished like this. */
  function Applied(c: Closing): seq<bytes> {
    if c.Closed? && c.tree.Some? && Flatten(c.tree.value) != [] then [Flatten(c.tree.value)] else []
  }

  /** From the events alone: at every cut of the wire each side of the terminal
      shows a prefix of what the process wrote to that side; and a client that
      has an exit code has all of it, the status the process ended with, and the
      tree the waiter chose to mirror back, if it had any content. */
  lemma RunDelivers(sync: bool, cap: nat, inbox: bytes, es: seq<Event>, t: State, cut: bytes)
    requires Reaches(Started(sync, cap, inbox), es, t) && cut <= t.link.wire
    ensures ViewOf(cut).stdout <= WrittenTo(es, Out) && ViewOf(cut).stderr <= WrittenTo(es, Err)
    ensures ViewOf(cut).code.Some? ==>
              && ViewOf(cut).stdout == WrittenTo(es, Out) && ViewOf(cut).stderr == WrittenTo(es, Err)
              && EndedBy(es).Some? && ViewOf(cut).code == Some(ExitStatus(EndedBy(es).value))
              && ClosedBy(es).Closed? && ViewOf(cut).tar == None && ViewOf(cut).applied == Applied(ClosedBy(es))
  {
    TextDelivered(sync, cap, inbox, es, t, cut);
    if ViewOf(cut).code.Some? {
      StatusDelivered(sync, cap, inbox, es, t, cut);
      TreeDelivered(sync, cap, inbox, es, t, cut);
    }
  }

  /** What the two sides are expected to show is what the events wrote. */
  lemma ExpectedIsWritten(sync: bool, cap: nat, inbox: bytes, es: seq<Event>, t: State)
    requires Reaches(Started(sync, cap, inbox), es, t)
    ensures ClientSees.Expected(t, Out) == WrittenTo(es, Out) && ClientSees.Expected(t, Err) == WrittenTo(es, Err)
    ensures t.notice == [] && Delivery.Ran(Delivery.CoreOf(t))
  {
    var start := Started(sync, cap, inbox);
    RunTold(start, es, t);
    TextFromStart(sync, cap, inbox, es, t, Out);
    TextFromStart(sync, cap, inbox, es, t, Err);
    StartedRuns(start, es, t);
  }

  lemma TextDelivered(sync: bool, cap: nat, inbox: bytes, es: seq<Event>, t: State, cut: bytes)
    requires Reaches(Started(sync, cap, inbox), es, t) && cut <= t.link.wire
    ensures ViewOf(cut).stdout <= WrittenTo(es, Out) && ViewOf(cut).stderr <= WrittenTo(es, Err)
    ensures ViewOf(cut).code.Some? ==>
              ViewOf(cut).stdout == WrittenTo(es, Out) && ViewOf(cut).stderr == WrittenTo(es, Err)
  {
    var start := Started(sync, cap, inbox);
    ExpectedIsWritten(sync, cap, inbox, es, t);
    ClientSees.PrefixDelivery(start, es, t, cut);
    ClientSees.ExitIsUnambiguous(start, es, t, cut);
  }

  lemma StatusDelivered(sync: bool, cap: nat, inbox: bytes, es: seq<Event>, t: State, cut: bytes)
    requires Reaches(Started(sync, cap, inbox), es, t) && cut <= t.link.wire && ViewOf(cut).code.Some?
    ensures EndedBy(es).Some? && ViewOf(cut).code == Some(ExitStatus(EndedBy(es).value))
  {
    var start := Started(sync, cap, inbox);
    RunTold(start, es, t);
    ExpectedIsWritten(sync, cap, inbox, es, t);
    ClientSees.OwnStatus(start, es, t, cut);
  }

  lemma TreeDelivered(sync: bool, cap: nat, inbox: bytes, es: seq<Event>, t: State, cut: bytes)
    requires Reaches(Started(sync, cap, inbox), es, t) && cut <= t.link.wire && ViewOf(cut).code.Some?
    ensures ClosedBy(es).Closed? && ViewOf(cut).tar == None && ViewOf(cut).applied == Applied(ClosedBy(es))
  {
    var start := Started(sync, cap, inbox);
    HeardIsFinished(start, es, t, cut);
    RunTold(start, es, t);
    ClientSees.ExitIsUnambiguous(start, es, t, cut);
  }

  /** A client that has an exit code ran with a waiter that closed `finished`. */
  lemma HeardIsFinished(start: State, es: seq<Event>, t: State, cut: bytes)
    requires IsStart(start) && start.main.Pumping? && Delivery.Ran(Delivery.CoreOf(start))
    requires Reaches(start, es, t) && cut <= t.link.wire && ViewOf(cut).code.Some?
    ensures t.finished
  {
    StartedRuns(start, es, t);
    ClientSees.ViewMatches(t, cut);
    ClientSees.StreamIsGood(Delivery.CoreOf(t));
    FinishedBeforeExit(start, es, t);
  }

  lemma TextFromStart(sync: bool, cap: nat, inbox: bytes, es: seq<Event>, t: State, side: Side)
    requires Told(Started(sync, cap, inbox), es, t)
    ensures TextOf(GetPipe(t, side)) == WrittenTo(es, side)
  {
    var none: bytes := [];
    assert TextOf(GetPipe(Started(sync, cap, inbox), side)) == none + none == none;
    assert none + WrittenTo(es, side) == WrittenTo(es, side);
  }

  lemma StartedRuns(start: State, es: seq<Event>, t: State)
    requires IsStart(start) && Reaches(start, es, t) && Delivery.Ran(Delivery.CoreOf(start))
    ensures Delivery.Inv(t) && Delivery.Ran(Delivery.CoreOf(t)) && t.notice == start.notice
  {
    Delivery.StartInv(start);
    ClientSees.CodeRun(start, start, es, t);
  }

  /** A run reaches its exit frame only past `finished`. */
  lemma {:induction false} FinishedBeforeExit(s: State, es: seq<Event>, t: State)
    requires Reaches(s, es, t) && (Past(s.main) ==> s.finished) && !s.main.Refusing?
    ensures Past(t.main) ==> t.finished
    decreases |es|
  {
    if es != [] {
      StepNoted(s, es[0]);
      PastOnlyByFinish(s, es[0]);
      FinishedBeforeExit(Step(s, es[0]), es[1..], t);
    }
  }

  lemma PastOnlyByFinish(s: State, e: Event)
    requires Enabled(s, e) && !s.main.Refusing?
    ensures Past(Step(s, e).main) ==> Past(s.main) || e.Finish?
    ensures !Step(s, e).main.Refusing?
  {
    if PumpEvent(e) {
      PumpMain(s, e);
    } else if !WaiterEvent(e) && !KillEvent(e) {
      OthersLeave(s, e);
    }
  }

  /** The signals of kill() are its SIGINT and SIGKILL steps: at most one of each,
      in that order. */
  lemma SignalsAreSteps(sync: bool, cap: nat, inbox: bytes, es: seq<Event>, t: State)
    requires Reaches(Started(sync, cap, inbox), es, t)
    ensures CountKills(es) <= CountInts(es) <= 1
    ensures t.finished <==> ClosedBy(es).Closed?
  {
    RunTold(Started(sync, cap, inbox), es, t);
    AtMostOneOfEach(Started(sync, cap, inbox), es, t);
  }
}
