/** What reaches the process: its stdin and its signals, against the frames that
    arrive, in every interleaving of a started run. */
module Given {
  import opened Prelude
  import opened Frames
  import opened SharedLink
  import opened AgentRun
  import opened AgentReceive
  import ClientSend
  import Upload

  /** What the client's end added to the inbox during a run. */
  function ArrivedBy(es: seq<Event>): bytes {
    if es == [] then []
    else (if es[0].Arrive? then es[0].data else []) + ArrivedBy(es[1..])
  }

  /** The stdin bytes the reader has in hand. */
  function InHand(s: State): bytes {
    if s.reader.Feeding? then s.reader.data else []
  }

  /** The process has not been reaped. */
  predicate NotReaped(s: State) {
    s.main.Pumping? || s.main.Waiting?
  }

  /** fed is what the frames read so far amount to. */
  ghost predicate GivenOk(s: State, fed: Fed) {
    var i := s.proc.stdin;
    && s.forwarded == fed.signals && i.given <= fed.stdin
    && (i.writeEndOpen ==> !fed.eof)
    && (i.writeEndOpen && !i.readEndClosed ==> i.given + InHand(s) == fed.stdin)
    && (!i.writeEndOpen && !i.readEndClosed && NotReaped(s) ==> fed.eof && i.given == fed.stdin)
  }

  /** The bytes that arrived are the frames read and what is still unread. */
  ghost predicate ReadOk(s: State, done: seq<Frame>, arrived: bytes) {
    AllFit(done) && arrived == EncodeAll(done) + s.inbox && GivenOk(s, FedBy(done))
  }

  /** A step that reads nothing from the client and feeds nothing to the process. */
  ghost predicate StdinLeft(s: State, t: State) {
    && t.proc.stdin == s.proc.stdin && t.forwarded == s.forwarded && InHand(t) == InHand(s)
    && (NotReaped(t) ==> NotReaped(s))
  }

  lemma LeftOk(s: State, t: State, fed: Fed)
    requires GivenOk(s, fed) && StdinLeft(s, t)
    ensures GivenOk(t, fed)
  {
  }

  lemma PumpsLeaveStdin(s: State, e: Event)
    requires Enabled(s, e) && PumpEvent(e)
    ensures StdinLeft(s, Step(s, e)) && Step(s, e).inbox == s.inbox
  {
    match e
    case PumpRead(side, n, eof) => ReadLeavesStdin(s, side, n, eof);
    case PumpBegins(side) => BeginLeavesStdin(s, side);
    case PumpWrote(side) => WroteLeavesStdin(s, side);
    case PumpFails(side) => FailLeavesStdin(s, side);
  }

  lemma ReadLeavesStdin(s: State, side: Side, n: nat, eof: bool)
    requires Enabled(s, PumpRead(side, n, eof))
    ensures var t := Step(s, PumpRead(side, n, eof)); StdinLeft(s, t) && t.inbox == s.inbox
  {
  }

  lemma BeginLeavesStdin(s: State, side: Side)
    requires Enabled(s, PumpBegins(side))
    ensures StdinLeft(s, Step(s, PumpBegins(side))) && Step(s, PumpBegins(side)).inbox == s.inbox
  {
  }

  lemma WroteLeavesStdin(s: State, side: Side)
    requires Enabled(s, PumpWrote(side))
    ensures StdinLeft(s, Step(s, PumpWrote(side))) && Step(s, PumpWrote(side)).inbox == s.inbox
  {
  }

  lemma FailLeavesStdin(s: State, side: Side)
    requires Enabled(s, PumpFails(side))
    ensures StdinLeft(s, Step(s, PumpFails(side))) && Step(s, PumpFails(side)).inbox == s.inbox
  {
  }

  lemma KillLeavesStdin(s: State, e: Event)
    requires Enabled(s, e) && KillEvent(e)
    ensures StdinLeft(s, Step(s, e)) && Step(s, e).inbox == s.inbox
  {
    match e
    case KillCheck(t) => KillReturnLeaves(s, t);
    case KillSignal(t) => KillReturnLeaves(s, t);
    case KillPass(t) =>
      KillReturnLeaves(s, t);
      assert s.(kill := s.kill) == s;
  }

  lemma KillReturnLeaves(s: State, t: Thread)
    requires Kills(s, t)
    ensures forall k: Kill ::
              StdinLeft(s, KillReturns(s.(kill := k), t)) && KillReturns(s.(kill := k), t).inbox == s.inbox
  {
  }

  lemma WaiterLeavesStdin(s: State, e: Event)
    requires Enabled(s, e) && WaiterEvent(e) && !e.Reap?
    ensures StdinLeft(s, Step(s, e)) && Step(s, e).inbox == s.inbox
  {
  }

  /** Reaping closes the write end; the process is past caring. */
  lemma ReapOk(s: State, fed: Fed)
    requires GivenOk(s, fed) && Enabled(s, Reap)
    ensures GivenOk(Step(s, Reap), fed) && Step(s, Reap).inbox == s.inbox
  {
  }

  lemma PipesLeaveStdin(s: State, e: Event)
    requires Enabled(s, e) && (e.ProcWrites? || e.ProcCloses?)
    ensures StdinLeft(s, Step(s, e)) && Step(s, e).inbox == s.inbox
  {
  }

  predicate QuietEvent(e: Event) {
    e.HangUp? || e.LinkDies? || e.Accept? || e.ProcEnds? || e.TimerKills? || e.TimerQuits?
  }

  lemma QuietLeavesStdin(s: State, e: Event)
    requires Enabled(s, e) && QuietEvent(e)
    ensures StdinLeft(s, Step(s, e)) && Step(s, e).inbox == s.inbox
  {
  }

  lemma FeedOk(s: State, e: Event, fed: Fed)
    requires GivenOk(s, fed) && Enabled(s, e)
    requires e.FeedStdin? || e.StdinFails? || e.ProcReads? || e.ProcClosesStdin?
    ensures GivenOk(Step(s, e), fed) && Step(s, e).inbox == s.inbox
  {
    if e.FeedStdin? {
      assert s.reader.data == s.reader.data[..e.k] + s.reader.data[e.k..];
    }
  }

  /** One frame read: what it amounts to is forwarded, in hand, or beyond the end. */
  lemma ReadFrameOk(s: State, f: Frame, rest: bytes, fed: Fed)
    requires GivenOk(s, fed) && s.reader.Idle? && ReadFrame(s.inbox) == Got(f, rest)
    ensures GivenOk(ReadOne(s), Feed(fed, f)) && ReadOne(s).inbox == rest
  {
    if f.kind == STDIN {
      StdinFrameOk(s, f, rest, fed);
    }
    assert InHand(s) == [];
    assert s.proc.stdin.given + [] == s.proc.stdin.given;
  }

  lemma StdinFrameOk(s: State, f: Frame, rest: bytes, fed: Fed)
    requires GivenOk(s, fed) && s.reader.Idle? && ReadFrame(s.inbox) == Got(f, rest) && f.kind == STDIN
    ensures GivenOk(ReadOne(s), Feed(fed, f))
  {
    assert s.proc.stdin.given + [] == s.proc.stdin.given;
  }

  lemma ReadStep(s: State, done: seq<Frame>, arrived: bytes) returns (done': seq<Frame>)
    requires ReadOk(s, done, arrived) && Enabled(s, ReadClient)
    ensures ReadOk(Step(s, ReadClient), done', arrived)
  {
    match ReadFrame(s.inbox)
    case Got(f, rest) =>
      done' := done + [f];
      ReadIsEncoding(s.inbox);
      EncodeAllSnoc(done, f);
      FedSnoc(done, f);
      ReadFrameOk(s, f, rest, FedBy(done));
      Assoc(EncodeAll(done), Encode(f), rest);
    case _ => done' := done;
  }

  /** Every step: the frames read grow only by the reader's turn. */
  lemma GivenStep(s: State, e: Event, done: seq<Frame>, arrived: bytes) returns (done': seq<Frame>)
    requires ReadOk(s, done, arrived) && Enabled(s, e)
    ensures ReadOk(Step(s, e), done', arrived + ArrivedBy([e]))
  {
    assert arrived + [] == arrived;
    done' := done;
    if e.Arrive? {
      LeftOk(s, Step(s, e), FedBy(done));
      Assoc(EncodeAll(done), s.inbox, e.data);
    } else if e.ReadClient? {
      done' := ReadStep(s, done, arrived);
    } else {
      OtherStep(s, e, FedBy(done));
    }
  }

  lemma OtherStep(s: State, e: Event, fed: Fed)
    requires GivenOk(s, fed) && Enabled(s, e) && !e.Arrive? && !e.ReadClient?
    ensures GivenOk(Step(s, e), fed) && Step(s, e).inbox == s.inbox
  {
    if PumpEvent(e) {
      PumpsLeaveStdin(s, e);
      LeftOk(s, Step(s, e), fed);
    } else if KillEvent(e) {
      KillLeavesStdin(s, e);
      LeftOk(s, Step(s, e), fed);
    } else if e.Reap? {
      ReapOk(s, fed);
    } else if WaiterEvent(e) {
      WaiterLeavesStdin(s, e);
      LeftOk(s, Step(s, e), fed);
    } else if e.ProcWrites? || e.ProcCloses? {
      PipesLeaveStdin(s, e);
      LeftOk(s, Step(s, e), fed);
    } else if QuietEvent(e) {
      QuietLeavesStdin(s, e);
      LeftOk(s, Step(s, e), fed);
    } else {
      FeedOk(s, e, fed);
    }
  }

  lemma {:induction false} GivenRun(s: State, es: seq<Event>, t: State, done: seq<Frame>, arrived: bytes)
    returns (done': seq<Frame>)
    requires ReadOk(s, done, arrived) && Reaches(s, es, t)
    ensures ReadOk(t, done', arrived + ArrivedBy(es))
    decreases |es|
  {
    if es == [] {
      done' := done;
      assert arrived + [] == arrived;
    } else {
      done' := GivenStep(s, es[0], done, arrived);
      done' := GivenRun(Step(s, es[0]), es[1..], t, done', arrived + ArrivedBy([es[0]]));
      assert ArrivedBy([es[0]]) + ArrivedBy(es[1..]) == ArrivedBy(es);
      Assoc(arrived, ArrivedBy([es[0]]), ArrivedBy(es[1..]));
    }
  }

  lemma ReadAllCons(f: Frame, tail: bytes)
    requires Fits(f)
    ensures ReadAll(Encode(f) + tail).frames == [f] + ReadAll(tail).frames
  {
    ReadEncoded(f, tail);
  }

  lemma {:induction false} ReadAllAfter(done: seq<Frame>, rest: bytes)
    requires AllFit(done)
    ensures ReadAll(EncodeAll(done) + rest).frames == done + ReadAll(rest).frames
  {
    if done == [] {
      assert EncodeAll(done) + rest == rest;
    } else {
      var later, tail := done[1..], EncodeAll(done[1..]) + rest;
      HeadFirst(done, rest);
      ReadAllCons(done[0], tail);
      ReadAllAfter(later, rest);
      Regroup(done, ReadAll(rest).frames);
    }
  }

  lemma HeadFirst(done: seq<Frame>, rest: bytes)
    requires AllFit(done) && done != []
    ensures EncodeAll(done) + rest == Encode(done[0]) + (EncodeAll(done[1..]) + rest)
  {
    Assoc(Encode(done[0]), EncodeAll(done[1..]), rest);
  }

  lemma Regroup(done: seq<Frame>, more: seq<Frame>)
    requires done != []
    ensures [done[0]] + (done[1..] + more) == done + more
  {
  }

  // ---- Main results ----

  /** In every reachable state the process was given a prefix of the stdin, and
      sent a prefix of the signals, in the frames that arrived; all of them once
      the reader has caught up and both ends of the pipe are open; and it sees the
      end of its stdin only when the client's end was read, and then has it all. */
  lemma StdinFaithful(sync: bool, cap: nat, inbox: bytes, es: seq<Event>, t: State)
    requires Reaches(Started(sync, cap, inbox), es, t)
    ensures var fed := FedBy(ReadAll(inbox + ArrivedBy(es)).frames);
            var i := t.proc.stdin;
            && i.given <= fed.stdin && t.forwarded <= fed.signals
            && (t.reader.Idle? && !ReadFrame(t.inbox).Got? ==> t.forwarded == fed.signals)
            && (t.reader.Idle? && !ReadFrame(t.inbox).Got? && i.writeEndOpen && !i.readEndClosed ==>
                  i.given == fed.stdin)
            && (!i.writeEndOpen && !i.readEndClosed && NotReaped(t) ==> fed.eof && i.given == fed.stdin)
  {
    var s := Started(sync, cap, inbox);
    assert EncodeAll([]) + inbox == inbox;
    assert FedBy([]) == Fed([], false, []);
    var none: bytes := [];
    assert none + none == none;
    var done := GivenRun(s, es, t, [], inbox);
    ReadAllAfter(done, t.inbox);
    var all := ReadAll(inbox + ArrivedBy(es)).frames;
    assert all[..|done|] == done;
    FedPrefix(all, |done|);
    if !ReadFrame(t.inbox).Got? {
      assert ReadAll(t.inbox).frames == [];
      assert all == done;
    }
  }

  /** So between knit's two ends: whatever the client's senders and the agent do,
      the process is given a prefix of what was typed and of the signals raised,
      and sees the end of its stdin only after all that was typed. */
  lemma TypedReachesProcess(cs: seq<ClientSend.Event>, c: ClientSend.State,
                            sync: bool, cap: nat, inbox: bytes, es: seq<Event>, t: State)
    requires ClientSend.Reaches(ClientSend.Start(false, []), cs, c)
    requires Reaches(Started(sync, cap, inbox), es, t) && inbox + ArrivedBy(es) <= c.link.wire
    ensures t.proc.stdin.given <= Upload.TypedBy(cs) && t.forwarded <= Upload.RaisedBy(cs)
    ensures !t.proc.stdin.writeEndOpen && !t.proc.stdin.readEndClosed && NotReaped(t) ==>
              Upload.DrainedBy(cs) && t.proc.stdin.given == Upload.TypedBy(cs)
  {
    StdinFaithful(sync, cap, inbox, es, t);
    Upload.PlainRunDelivers(cs, c, inbox + ArrivedBy(es));
  }
}
