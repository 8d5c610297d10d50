/** What the events of a connection say of the state they lead to: the requests
    asked, the frames sent and the processes started. */
module Asked {
  import opened Prelude
  import opened Frames
  import opened Proofs
  import opened Control
  import opened AgentConn
  import opened Lockstep
  import opened RunOnce
  import Transport

  // ---- Read off the events ----

  function SentByClient(es: seq<Event>): seq<Frame> {
    if es == [] then [] else (if es[0].ClientSends? then [es[0].f] else []) + SentByClient(es[1..])
  }

  function SentByAgent(es: seq<Event>): seq<Frame> {
    if es == [] then [] else (if es[0].AgentSends? then [es[0].f] else []) + SentByAgent(es[1..])
  }

  function Spawns(es: seq<Event>): nat {
    if es == [] then 0 else (if es[0].AgentSpawns? then 1 else 0) + Spawns(es[1..])
  }

  /** The requests as they go out: version 3 always, and a proof over the agent's
      nonce on the first. */
  function Requests(k: Ends, es: seq<Event>): seq<Request> {
    if es == [] then []
    else
      (match es[0]
       case ClientOpens(req) => [req.(v := 3, hmac := ClientProof(k.key, k.nonce, k.cb))]
       case ClientDoes(req) => [req.(v := 3)]
       case _ => [])
      + Requests(k, es[1..])
  }

  function Asks(log: seq<Exchange>): seq<Request> {
    seq(|log|, i requires 0 <= i < |log| => log[i].req)
  }

  /** Every request the client has asked: those answered, and the one it waits on. */
  function AskedOf(s: State): seq<Request> {
    Asks(s.cLog) + if s.client.Asking? then [s.client.req] else []
  }

  ghost predicate Noted(k: Ends, s: State, es: seq<Event>, t: State) {
    && t.cFrames == s.cFrames + SentByClient(es)
    && t.aFrames == s.aFrames + SentByAgent(es)
    && t.started == s.started + Spawns(es)
    && AskedOf(t) == AskedOf(s) + Requests(k, es)
  }

  // ---- One step ----

  lemma OpensNoted(k: Ends, s: State, req: Request)
    requires EndsOk(k) && Inv(k, s) && Enabled(k, s, ClientOpens(req))
    ensures Noted(k, s, [ClientOpens(req)], Step(k, s, ClientOpens(req)))
  {
    var hello := Greeting(k.nonce);
    assert s.toClient == Line(hello) + [];
    assert OneLine(hello);
    ReadOwnLine(hello, []);
    GreetingParses(k.nonce, hello);
    assert Step(k, s, ClientOpens(req)).client == Asking(Transport.Opening(k.key, k.cb, k.nonce, req), true);
  }

  /** The reply the client reads answers the request it waits on. */
  lemma ReadsOwnReply(k: Ends, s: State)
    requires EndsOk(k) && Inv(k, s) && Enabled(k, s, ClientReads)
    ensures s.client.Asking? && |s.aLog| == |s.cLog| + 1
    ensures s.aLog == s.cLog + [s.aLog[|s.cLog|]] && s.aLog[|s.cLog|].req == s.client.req
  {
    ReplyAtHand(k, s);
  }

  lemma ReadsNoted(k: Ends, s: State)
    requires EndsOk(k) && Inv(k, s) && Enabled(k, s, ClientReads)
    ensures Noted(k, s, [ClientReads], Step(k, s, ClientReads))
  {
    ReadsOwnReply(k, s);
    ClientReadsTo(k, s);
    AsksSnoc(s.cLog, s.aLog[|s.cLog|]);
    ReadAsNoted(k, s, Step(k, s, ClientReads));
  }

  lemma ReadAsNoted(k: Ends, s: State, t: State)
    requires s.client.Asking? && !t.client.Asking?
    requires t.cFrames == s.cFrames && t.aFrames == s.aFrames && t.started == s.started
    requires Asks(t.cLog) == Asks(s.cLog) + [s.client.req]
    ensures Noted(k, s, [ClientReads], t)
  {
  }

  lemma AsksSnoc(log: seq<Exchange>, x: Exchange)
    ensures Asks(log + [x]) == Asks(log) + [x.req]
  {
  }

  lemma AgentNoted(k: Ends, s: State, e: Event)
    requires Enabled(k, s, e) && AgentEvent(e)
    ensures Noted(k, s, [e], Step(k, s, e))
  {
  }

  lemma StepNoted(k: Ends, s: State, e: Event)
    requires EndsOk(k) && Inv(k, s) && Enabled(k, s, e)
    ensures Noted(k, s, [e], Step(k, s, e))
  {
    if AgentEvent(e) {
      AgentNoted(k, s, e);
    } else if e.ClientOpens? {
      OpensNoted(k, s, e.req);
    } else if e.ClientReads? {
      ReadsNoted(k, s);
    } else {
      PlainNoted(k, s, e);
    }
  }

  lemma PlainNoted(k: Ends, s: State, e: Event)
    requires Enabled(k, s, e)
    requires e.ClientDoes? || e.ClientSends? || e.ClientGets? || e.ClientEnds? || e.AgentEnds?
    ensures Noted(k, s, [e], Step(k, s, e))
  {
  }

  lemma {:induction false} RunNoted(k: Ends, s: State, es: seq<Event>, t: State)
    requires EndsOk(k) && Inv(k, s) && Reaches(k, s, es, t)
    ensures Noted(k, s, es, t)
    decreases |es|
  {
    if es != [] {
      var u := Step(k, s, es[0]);
      StepNoted(k, s, es[0]);
      StepInv(k, s, es[0]);
      RunNoted(k, u, es[1..], t);
      var one := [es[0]];
      Assoc(s.cFrames, SentByClient(one), SentByClient(es[1..]));
      Assoc(s.aFrames, SentByAgent(one), SentByAgent(es[1..]));
      Assoc(AskedOf(s), Requests(k, one), Requests(k, es[1..]));
      OneFirst(k, es);
    }
  }

  lemma OneFirst(k: Ends, es: seq<Event>)
    requires es != []
    ensures SentByClient(es) == SentByClient([es[0]]) + SentByClient(es[1..])
    ensures SentByAgent(es) == SentByAgent([es[0]]) + SentByAgent(es[1..])
    ensures Spawns(es) == Spawns([es[0]]) + Spawns(es[1..])
    ensures Requests(k, es) == Requests(k, [es[0]]) + Requests(k, es[1..])
  {
    var one := [es[0]];
    assert one[1..] == [];
  }

  lemma LoggedAsks(s: State)
    requires s.cLog <= s.aLog && |s.aLog| <= |s.cLog| + 1
    requires |s.aLog| > |s.cLog| ==> s.client.Asking? && s.aLog[|s.cLog|].req == s.client.req
    ensures Asks(s.aLog) <= AskedOf(s)
  {
    if |s.aLog| > |s.cLog| {
      assert Asks(s.aLog) == AskedOf(s);
    } else {
      assert s.aLog == s.cLog;
    }
  }

  // ---- Main results ----

  /** On every run of a connection: the requests asked are those the client opened
      with or did, in order, with its proof on the first, and the requests answered
      are the first of them; a process was started as often as the events say. */
  lemma RequestsFollowEvents(k: Ends, es: seq<Event>, t: State)
    requires EndsOk(k) && Reaches(k, START, es, t)
    ensures AskedOf(t) == Requests(k, es) && Asks(t.aLog) <= Requests(k, es)
    ensures t.started == Spawns(es)
  {
    RunNoted(k, START, es, t);
    OneReplyEach(k, es, t);
    LoggedAsks(t);
    assert AskedOf(START) == [];
  }

  /** What each end has read and still has to read are the frames the events sent. */
  lemma FramesFollowEvents(k: Ends, es: seq<Event>, t: State)
    requires EndsOk(k) && Reaches(k, START, es, t) && t.client.Streams?
    ensures t.aGot + ReadAll(t.toAgent).frames == SentByClient(es)
    ensures t.cGot + ReadAll(t.toClient).frames == SentByAgent(es)
  {
    RunNoted(k, START, es, t);
    FramesDecodeExactly(k, es, t);
  }

  /** The starts counted in an attempt are its processes' own starts. */
  function SpawnMoves(ms: seq<Move>): nat {
    if ms == [] then 0
    else (if !ms[0].FallBack? && ms[0].e.AgentSpawns? then 1 else 0) + SpawnMoves(ms[1..])
  }

  lemma MoveStarts(k: Ends, d: Ends, req: Request, a: Attempt, m: Move)
    requires CanMove(k, d, req, a, m)
    ensures Starts(Moved(k, d, req, a, m)) == Starts(a) + if !m.FallBack? && m.e.AgentSpawns? then 1 else 0
  {
    match m
    case OnProbe(e) => StartsByStep(k, a.probe, e);
    case FallBack =>
    case OnDial(e) => StartsByStep(d, a.dial.value, e);
  }

  lemma StartsByStep(k: Ends, s: State, e: Event)
    requires Enabled(k, s, e)
    ensures Step(k, s, e).started == s.started + if e.AgentSpawns? then 1 else 0
  {
  }

  lemma {:induction false} StartsAreSpawns(k: Ends, d: Ends, req: Request, a: Attempt, ms: seq<Move>, b: Attempt)
    requires Leads(k, d, req, a, ms, b)
    ensures Starts(b) == Starts(a) + SpawnMoves(ms)
    decreases |ms|
  {
    if ms != [] {
      MoveStarts(k, d, req, a, ms[0]);
      StartsAreSpawns(k, d, req, Moved(k, d, req, a, ms[0]), ms[1..], b);
    }
  }
}
