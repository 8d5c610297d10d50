/** knit run on a chosen machine: Do on the reused probe session and, if that
    fails, one fresh dial. How often is the command started? */
module RunOnce {
  import opened Prelude
  import opened Frames
  import opened Proofs
  import opened Control
  import Transport
  import opened AgentConn
  import opened Lockstep

  /** The two connections of one run; the second exists once Run fell back. */
  datatype Attempt = Attempt(probe: State, dial: Option<State>)

  const BEGIN := Attempt(START, None)

  datatype Move = OnProbe(e: Event) | FallBack | OnDial(e: Event)

  /** Do returned an error: the agent refused the run, or the connection failed
      before its reply was read. */
  predicate DoFailed(s: State) {
    || (s.client.Over? && s.cLog != [] && s.cLog[|s.cLog| - 1].req.op.Run?)
    || (!s.clientUp && s.client.Asking? && s.client.req.op.Run?)
  }

  /** The client's program: info on the probe, then the run, on either connection. */
  predicate Allowed(req: Request, e: Event, probe: bool) {
    match e
    case ClientOpens(q) => if probe then q.op.Info? else q == req
    case ClientDoes(q) => probe && q == req
    case _ => true
  }

  predicate CanMove(k: Ends, d: Ends, req: Request, a: Attempt, m: Move) {
    match m
    case OnProbe(e) => Enabled(k, a.probe, e) && Allowed(req, e, true)
    case FallBack => a.dial.None? && DoFailed(a.probe)
    case OnDial(e) => a.dial.Some? && Enabled(d, a.dial.value, e) && Allowed(req, e, false)
  }

  function Moved(k: Ends, d: Ends, req: Request, a: Attempt, m: Move): Attempt
    requires CanMove(k, d, req, a, m)
  {
    match m
    case OnProbe(e) => a.(probe := Step(k, a.probe, e))
    case FallBack => a.(dial := Some(START))
    case OnDial(e) => a.(dial := Some(Step(d, a.dial.value, e)))
  }

  ghost predicate Leads(k: Ends, d: Ends, req: Request, a: Attempt, ms: seq<Move>, b: Attempt)
    decreases |ms|
  {
    if ms == [] then a == b
    else CanMove(k, d, req, a, ms[0]) && Leads(k, d, req, Moved(k, d, req, a, ms[0]), ms[1..], b)
  }

  function Starts(a: Attempt): nat {
    a.probe.started + if a.dial.Some? then a.dial.value.started else 0
  }

  /** A request the agent took and granted, on a connection whose client is not,
      and may never be, told so. */
  predicate Unheard(s: State) {
    s.client.Asking? && (s.agent.Spawned? || (s.agent.Serving? && !s.client.req.dir))
  }

  /** The run the probe's client asks for is this one. */
  predicate RunAsked(req: Request, s: State) {
    s.client.Asking? && s.client.req.op.Run? ==> s.client == Asking(req.(v := VERSION), false)
  }

  lemma AsksFor(k: Ends, req: Request, s: State, e: Event)
    requires RunAsked(req, s) && Enabled(k, s, e) && Allowed(req, e, true)
    ensures RunAsked(req, Step(k, s, e))
  {
  }

  ghost predicate AttemptOk(k: Ends, d: Ends, req: Request, a: Attempt) {
    && Inv(k, a.probe) && (a.dial.Some? ==> Inv(d, a.dial.value))
    && RunAsked(req, a.probe)
    && (a.dial.Some? ==> DoFailed(a.probe))
  }

  /** A failed Do stays failed, whatever the agent still does. */
  lemma FailedStays(k: Ends, req: Request, s: State, e: Event)
    requires Inv(k, s) && DoFailed(s) && Enabled(k, s, e) && Allowed(req, e, true)
    ensures DoFailed(Step(k, s, e))
  {
  }

  lemma MoveOk(k: Ends, d: Ends, req: Request, a: Attempt, m: Move)
    requires EndsOk(k) && EndsOk(d) && AttemptOk(k, d, req, a) && CanMove(k, d, req, a, m)
    ensures AttemptOk(k, d, req, Moved(k, d, req, a, m))
  {
    match m
    case OnProbe(e) =>
      StepInv(k, a.probe, e);
      AsksFor(k, req, a.probe, e);
      if a.dial.Some? {
        FailedStays(k, req, a.probe, e);
      }
    case FallBack =>
    case OnDial(e) => StepInv(d, a.dial.value, e);
  }

  lemma {:induction false} RunsOk(k: Ends, d: Ends, req: Request, a: Attempt, ms: seq<Move>, b: Attempt)
    requires EndsOk(k) && EndsOk(d) && AttemptOk(k, d, req, a) && Leads(k, d, req, a, ms, b)
    ensures AttemptOk(k, d, req, b)
    decreases |ms|
  {
    if ms != [] {
      MoveOk(k, d, req, a, ms[0]);
      RunsOk(k, d, req, Moved(k, d, req, a, ms[0]), ms[1..], b);
    }
  }

  // ---- Main results ----

  /** A refused request never started a process: not before the refusal, nor later. */
  lemma RefusedNeverStarts(k: Ends, es: seq<Event>, t: State)
    requires EndsOk(k) && Reaches(k, START, es, t) && t.client.Over?
    ensures t.started == 0
  {
    RunInv(k, START, es, t);
  }

  lemma {:induction false} OldAgentIdle(k: Ends, d: Ends, req: Request, a: Attempt, ms: seq<Move>, b: Attempt)
    requires Leads(k, d, req, a, ms, b)
    requires a.probe.agent.Listening? && !a.probe.agentUp
    ensures b.probe.started == a.probe.started
    decreases |ms|
  {
    if ms != [] {
      OldAgentIdle(k, d, req, Moved(k, d, req, a, ms[0]), ms[1..], b);
    }
  }

  /** When the probe's agent closes after an info reply, or ever while it waits
      for a request, every continuation starts the command at most once, on the
      dialled connection. */
  lemma OldAgentStartsOnce(k: Ends, d: Ends, req: Request, ms: seq<Move>, a: Attempt, ns: seq<Move>, b: Attempt)
    requires EndsOk(k) && EndsOk(d) && Leads(k, d, req, BEGIN, ms, a) && Leads(k, d, req, a, ns, b)
    requires a.probe.agent.Listening? && !a.probe.agentUp
    ensures b.probe.started == 0 && Starts(b) <= 1
  {
    RunsOk(k, d, req, BEGIN, ms, a);
    RunsOk(k, d, req, a, ns, b);
    OldAgentIdle(k, d, req, a, ns, b);
  }

  /** In every run the command starts at most twice, and at most once with --dir;
      once Run fell back, the first agent has started it exactly when it granted a
      request whose reply the client has not read. */
  lemma AtMostTwice(k: Ends, d: Ends, req: Request, ms: seq<Move>, a: Attempt)
    requires EndsOk(k) && EndsOk(d) && Leads(k, d, req, BEGIN, ms, a)
    ensures Starts(a) <= 2 && (req.dir ==> Starts(a) <= 1)
    ensures Starts(a) == 2 <==> Unheard(a.probe) && a.dial.Some? && a.dial.value.started == 1
    ensures a.dial.Some? ==> !a.probe.client.Streams? && (a.probe.started == 1 <==> Unheard(a.probe))
  {
    RunsOk(k, d, req, BEGIN, ms, a);
  }

  // ---- At the moment of falling back ----

  /** The client got no reply, and the first agent may yet start the command or
      has: it granted the request, has it in hand, or has it still to read. */
  predicate MayHaveStarted(s: State) {
    && s.client.Asking? && Runnable(s.client.req) && !s.client.req.dir
    && (s.agent.Spawned? || s.agent.Serving?
        || (s.agentUp && (s.agent.Handling? || (s.agent.Listening? && s.aLog == s.cLog))))
  }

  /** Once false it stays false, and while it is false nothing was started. */
  lemma NotGained(k: Ends, req: Request, s: State, e: Event)
    requires EndsOk(k) && Inv(k, s) && DoFailed(s) && !MayHaveStarted(s)
    requires Enabled(k, s, e) && Allowed(req, e, true)
    ensures !MayHaveStarted(Step(k, s, e))
  {
    if e.AgentReads? && s.client.Asking? {
      AgentReadsOwn(k, s);
    }
  }

  /** What a waiting client's agent reads is that client's request. */
  lemma AgentReadsOwn(k: Ends, s: State)
    requires EndsOk(k) && Inv(k, s) && s.client.Asking? && Enabled(k, s, AgentReads)
    ensures s.aLog == s.cLog && s.toAgent == Line(k.codec.encReq(s.client.req))
    ensures FollowUp(k.codec, s.toAgent) == Next(s.client.req, [])
  {
    var q := s.client.req;
    assert s.toAgent == Line(k.codec.encReq(q)) + [];
    ReadOwnLine(k.codec.encReq(q), []);
  }

  lemma NothingStarted(k: Ends, s: State)
    requires Inv(k, s) && DoFailed(s) && !MayHaveStarted(s)
    ensures s.started == 0
  {
  }

  lemma {:induction false} NeverTwice(k: Ends, d: Ends, req: Request, a: Attempt, ms: seq<Move>, b: Attempt)
    requires EndsOk(k) && EndsOk(d) && AttemptOk(k, d, req, a) && Leads(k, d, req, a, ms, b)
    requires DoFailed(a.probe) && !MayHaveStarted(a.probe)
    ensures Starts(b) <= 1
    decreases |ms|
  {
    if ms == [] {
      NothingStarted(k, a.probe);
    } else {
      MoveOk(k, d, req, a, ms[0]);
      if ms[0].OnProbe? {
        NotGained(k, req, a.probe, ms[0].e);
        FailedStays(k, req, a.probe, ms[0].e);
      }
      NeverTwice(k, d, req, Moved(k, d, req, a, ms[0]), ms[1..], b);
    }
  }

  /** The first agent gets there on its own. */
  lemma AgentStarts(k: Ends, req: Request, s: State) returns (es: seq<Event>, t: State)
    requires EndsOk(k) && Inv(k, s) && RunAsked(req, s) && MayHaveStarted(s)
    ensures Reaches(k, s, es, t) && AllAllowed(req, es, true) && t.started == 1
  {
    es, t := [], s;
    if s.agent.Handling? {
      es, t := [AgentSpawns], Step(k, s, AgentSpawns);
      assert Reaches(k, t, [], t);
    } else if s.agent.Listening? {
      var q := s.client.req;
      assert s.agent == Listening(false);
      assert s.toAgent == Line(k.codec.encReq(q));
      TakesRequest(k, s, q, false);
      var u := Step(k, s, AgentReads);
      t := Step(k, u, AgentSpawns);
      assert Reaches(k, t, [], t);
      ReachesCons(k, u, AgentSpawns, [], t);
      ReachesCons(k, s, AgentReads, [AgentSpawns], t);
      es := [AgentReads] + ([AgentSpawns] + []);
    }
  }

  /** The dialled agent starts a runnable request when the keys agree. */
  lemma DialStarts(d: Ends, req: Request) returns (es: seq<Event>, t: State)
    requires EndsOk(d) && d.key == d.agentKey && Runnable(req.(v := VERSION)) && !req.dir
    ensures Reaches(d, START, es, t) && AllAllowed(req, es, false) && t.started == 1
  {
    ReachesOpened(d, req);
    var s := Opened(d, req);
    t := Step(d, s, AgentSpawns);
    var opens := [AgentGreets, ClientOpens(req), AgentReads];
    assert Reaches(d, t, [], t);
    ReachesCons(d, s, AgentSpawns, [], t);
    ReachesTrans(d, START, opens, s, [AgentSpawns] + [], t);
    es := opens + ([AgentSpawns] + []);
  }

  lemma {:induction false} ReachesTrans(k: Ends, s: State, es: seq<Event>, t: State, fs: seq<Event>, u: State)
    requires Reaches(k, s, es, t) && Reaches(k, t, fs, u)
    ensures Reaches(k, s, es + fs, u)
    decreases |es|
  {
    if es == [] {
      assert es + fs == fs;
    } else {
      assert (es + fs)[1..] == es[1..] + fs;
      ReachesTrans(k, Step(k, s, es[0]), es[1..], t, fs, u);
    }
  }

  /** Both starts, from the moment of falling back. */
  lemma StartsTwiceFrom(k: Ends, d: Ends, req: Request, a: Attempt) returns (ns: seq<Move>, b: Attempt)
    requires EndsOk(k) && EndsOk(d) && AttemptOk(k, d, req, a) && CanMove(k, d, req, a, FallBack)
    requires MayHaveStarted(a.probe) && d.key == d.agentKey
    ensures Leads(k, d, req, a, ns, b) && Starts(b) == 2
  {
    var es, t := AgentStarts(k, req, a.probe);
    var fs, u := DialStarts(d, req);
    var a1 := Moved(k, d, req, a, FallBack);
    var a2 := With(a1, true, t);
    LeadsOne(k, d, req, a, FallBack);
    LeadsOn(k, d, req, a1, true, a.probe, es, t);
    assert With(a1, true, a.probe) == a1;
    LeadsTrans(k, d, req, a, [FallBack], a1, On(true, es), a2);
    LeadsOn(k, d, req, a2, false, START, fs, u);
    assert With(a2, false, START) == a2;
    b := With(a2, false, u);
    LeadsTrans(k, d, req, a, [FallBack] + On(true, es), a2, On(false, fs), b);
    ns := [FallBack] + On(true, es) + On(false, fs);
  }

  ghost predicate SecondStartPossible(k: Ends, d: Ends, req: Request, a: Attempt) {
    exists ns, b :: Leads(k, d, req, a, ns, b) && Starts(b) == 2
  }

  /** When Run falls back, a second start is still possible if and only if the
      dialled agent holds the key and the first may have started the command: the
      client got no reply (not a refusal) to a runnable request without --dir,
      which the first agent granted, has in hand, or can still read. */
  lemma SecondStartIff(k: Ends, d: Ends, req: Request, ms: seq<Move>, a: Attempt)
    requires EndsOk(k) && EndsOk(d) && Leads(k, d, req, BEGIN, ms, a) && CanMove(k, d, req, a, FallBack)
    ensures SecondStartPossible(k, d, req, a) <==> MayHaveStarted(a.probe) && d.key == d.agentKey
  {
    RunsOk(k, d, req, BEGIN, ms, a);
    if MayHaveStarted(a.probe) && d.key == d.agentKey {
      var ns, b := StartsTwiceFrom(k, d, req, a);
    }
    if SecondStartPossible(k, d, req, a) {
      var ns, b :| Leads(k, d, req, a, ns, b) && Starts(b) == 2;
      RunsOk(k, d, req, a, ns, b);
      if !MayHaveStarted(a.probe) {
        NeverTwice(k, d, req, a, ns, b);
      }
    }
  }

  /** After a refusal no continuation starts the command more than once. */
  lemma RefusalThenOnce(k: Ends, d: Ends, req: Request, ms: seq<Move>, a: Attempt, ns: seq<Move>, b: Attempt)
    requires EndsOk(k) && EndsOk(d) && Leads(k, d, req, BEGIN, ms, a) && Leads(k, d, req, a, ns, b)
    requires a.probe.client.Over? && DoFailed(a.probe)
    ensures Starts(b) <= 1
  {
    RunsOk(k, d, req, BEGIN, ms, a);
    NeverTwice(k, d, req, a, ns, b);
  }

  // ---- It does happen ----

  const REPORT := Request(VERSION, Junk([]), Info, [], false, false, "")
  const COMMAND := Request(VERSION, Junk([]), Run, ["make"], false, false, "")
  const WILLING := World("", (req: Request) => NoCode)

  function OpeningOf(k: Ends, q: Request): Request {
    Transport.Opening(k.key, k.cb, k.nonce, q)
  }

  /** The agent has the client's first request in hand. */
  function Opened(k: Ends, q: Request): State {
    START.(client := Asking(OpeningOf(k, q), true), agent := Handling(OpeningOf(k, q)))
  }

  /** The agent has the run request in hand, after the info exchange x. */
  function Followed(x: Exchange): State {
    START.(client := Asking(COMMAND, false), agent := Handling(COMMAND), cLog := [x], aLog := [x])
  }

  lemma ReachesCons(k: Ends, s: State, e: Event, es: seq<Event>, t: State)
    requires Enabled(k, s, e) && Reaches(k, Step(k, s, e), es, t)
    ensures Reaches(k, s, [e] + es, t)
  {
    assert ([e] + es)[1..] == es;
  }

  lemma TakesRequest(k: Ends, s: State, q: Request, first: bool)
    requires EndsOk(k) && s.agentUp && s.agent == Listening(first) && s.toAgent == Line(k.codec.encReq(q))
    requires first ==> q.hmac == ClientProof(k.agentKey, k.nonce, k.cb)
    ensures Enabled(k, s, AgentReads)
    ensures Step(k, s, AgentReads) == s.(toAgent := [], agent := Handling(q))
  {
    assert s.toAgent == s.toAgent + [];
    ReadOwnLine(k.codec.encReq(q), []);
  }

  lemma ReachesOpened(k: Ends, q: Request)
    requires EndsOk(k) && k.key == k.agentKey
    ensures Reaches(k, START, [AgentGreets, ClientOpens(q), AgentReads], Opened(k, q))
  {
    var hello, o := Greeting(k.nonce), OpeningOf(k, q);
    var s1 := Step(k, START, AgentGreets);
    assert s1.toClient == Line(hello) + [];
    assert OneLine(hello);
    ReadOwnLine(hello, []);
    GreetingParses(k.nonce, hello);
    var s2 := Step(k, s1, ClientOpens(q));
    assert s2.toAgent == Line(k.codec.encReq(o));
    TakesRequest(k, s2, o, true);
    var t := Opened(k, q);
    assert Reaches(k, t, [], t);
    ReachesCons(k, s2, AgentReads, [], t);
    ReachesCons(k, s1, ClientOpens(q), [AgentReads], t);
    ReachesCons(k, START, AgentGreets, [ClientOpens(q), AgentReads], t);
  }

  lemma ReachesFollowed(k: Ends) returns (x: Exchange)
    requires EndsOk(k) && k.key == k.agentKey
    ensures Reaches(k, Opened(k, REPORT),
                    [AgentReplies(WILLING), ClientReads, ClientDoes(COMMAND), AgentReads], Followed(x))
  {
    var s, o := Opened(k, REPORT), OpeningOf(k, REPORT);
    var reply := ReplyTo(WILLING, Granted(k), o);
    x := Exchange(o, reply);
    var s1 := Step(k, s, AgentReplies(WILLING));
    assert s1.toClient == Line(k.codec.encEnv(reply)) + [];
    ReadOwnLine(k.codec.encEnv(reply), []);
    var s2 := Step(k, s1, ClientReads);
    assert s2.client == Idle;
    var s3 := Step(k, s2, ClientDoes(COMMAND));
    assert s3.toAgent == Line(k.codec.encReq(COMMAND));
    TakesRequest(k, s3, COMMAND, false);
    var t := Followed(x);
    assert Reaches(k, t, [], t);
    ReachesCons(k, s3, AgentReads, [], t);
    ReachesCons(k, s2, ClientDoes(COMMAND), [AgentReads], t);
    ReachesCons(k, s1, ClientReads, [ClientDoes(COMMAND), AgentReads], t);
    ReachesCons(k, s, AgentReplies(WILLING), [ClientReads, ClientDoes(COMMAND), AgentReads], t);
  }

  // ---- Lifting one connection's steps to the whole attempt ----

  function With(a: Attempt, probe: bool, s: State): Attempt {
    if probe then a.(probe := s) else a.(dial := Some(s))
  }

  function On(probe: bool, es: seq<Event>): seq<Move> {
    if es == [] then [] else [if probe then OnProbe(es[0]) else OnDial(es[0])] + On(probe, es[1..])
  }

  predicate AllAllowed(req: Request, es: seq<Event>, probe: bool) {
    forall i :: 0 <= i < |es| ==> Allowed(req, es[i], probe)
  }

  lemma {:induction false} LeadsOn(k: Ends, d: Ends, req: Request, a: Attempt, probe: bool,
                                  s: State, es: seq<Event>, t: State)
    requires Reaches(if probe then k else d, s, es, t) && AllAllowed(req, es, probe)
    ensures Leads(k, d, req, With(a, probe, s), On(probe, es), With(a, probe, t))
    decreases |es|
  {
    if es != [] {
      var u := Step(if probe then k else d, s, es[0]);
      LeadsOn(k, d, req, a, probe, u, es[1..], t);
      assert On(probe, es)[1..] == On(probe, es[1..]);
    }
  }

  lemma {:induction false} LeadsTrans(k: Ends, d: Ends, req: Request, a: Attempt, ms: seq<Move>, b: Attempt,
                                     ns: seq<Move>, c: Attempt)
    requires Leads(k, d, req, a, ms, b) && Leads(k, d, req, b, ns, c)
    ensures Leads(k, d, req, a, ms + ns, c)
    decreases |ms|
  {
    if ms == [] {
      assert ms + ns == ns;
    } else {
      assert (ms + ns)[1..] == ms[1..] + ns;
      LeadsTrans(k, d, req, Moved(k, d, req, a, ms[0]), ms[1..], b, ns, c);
    }
  }

  lemma LeadsOne(k: Ends, d: Ends, req: Request, a: Attempt, m: Move)
    requires CanMove(k, d, req, a, m)
    ensures Leads(k, d, req, a, [m], Moved(k, d, req, a, m))
  {
    assert Leads(k, d, req, Moved(k, d, req, a, m), [], Moved(k, d, req, a, m));
  }

  /** The probe, the run request sent and taken. */
  lemma LeadsFollowed(k: Ends, d: Ends) returns (ms: seq<Move>, x: Exchange)
    requires EndsOk(k) && k.key == k.agentKey
    ensures Leads(k, d, COMMAND, BEGIN, ms, Attempt(Followed(x), None))
  {
    var opens := [AgentGreets, ClientOpens(REPORT), AgentReads];
    var asks := [AgentReplies(WILLING), ClientReads, ClientDoes(COMMAND), AgentReads];
    ReachesOpened(k, REPORT);
    LeadsOn(k, d, COMMAND, BEGIN, true, START, opens, Opened(k, REPORT));
    x := ReachesFollowed(k);
    LeadsOn(k, d, COMMAND, BEGIN, true, Opened(k, REPORT), asks, Followed(x));
    LeadsTrans(k, d, COMMAND, BEGIN, On(true, opens), Attempt(Opened(k, REPORT), None),
               On(true, asks), Attempt(Followed(x), None));
    ms := On(true, opens) + On(true, asks);
  }

  /** The connection fails once the agent has the run request in hand; the
      client falls back, and the agent starts the command all the same. */
  lemma LeadsUnheard(k: Ends, d: Ends) returns (ms: seq<Move>, a: Attempt)
    requires EndsOk(k) && k.key == k.agentKey
    ensures Leads(k, d, COMMAND, BEGIN, ms, a) && a.probe.started == 1 && a.dial == Some(START)
  {
    var x;
    ms, x := LeadsFollowed(k, d);
    a := Attempt(Followed(x), None);
    ms, a := Then(k, d, ms, a, OnProbe(ClientEnds));
    ms, a := Then(k, d, ms, a, FallBack);
    ms, a := Then(k, d, ms, a, OnProbe(AgentSpawns));
  }

  /** Then both agents start the command. The failure came before the first start,
      so ruling out failures between a start and its reply would not be enough. */
  lemma StartedTwiceReachable(k: Ends, d: Ends) returns (ms: seq<Move>, a: Attempt)
    requires EndsOk(k) && EndsOk(d) && k.key == k.agentKey && d.key == d.agentKey
    ensures Leads(k, d, COMMAND, BEGIN, ms, a) && Starts(a) == 2
  {
    ms, a := LeadsUnheard(k, d);
    var opens := [AgentGreets, ClientOpens(COMMAND), AgentReads];
    ReachesOpened(d, COMMAND);
    LeadsOn(k, d, COMMAND, a, false, START, opens, Opened(d, COMMAND));
    LeadsTrans(k, d, COMMAND, BEGIN, ms, a, On(false, opens), With(a, false, Opened(d, COMMAND)));
    ms, a := ms + On(false, opens), With(a, false, Opened(d, COMMAND));
    ms, a := Then(k, d, ms, a, OnDial(AgentSpawns));
  }

  lemma Then(k: Ends, d: Ends, ms: seq<Move>, a: Attempt, m: Move) returns (ns: seq<Move>, b: Attempt)
    requires Leads(k, d, COMMAND, BEGIN, ms, a) && CanMove(k, d, COMMAND, a, m)
    ensures b == Moved(k, d, COMMAND, a, m) && Leads(k, d, COMMAND, BEGIN, ns, b)
  {
    ns, b := ms + [m], Moved(k, d, COMMAND, a, m);
    LeadsOne(k, d, COMMAND, a, m);
    LeadsTrans(k, d, COMMAND, BEGIN, ms, a, [m], b);
  }
}
