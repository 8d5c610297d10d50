/** One connection with its client and its agent as a state machine: Open, any
    number of Do calls on the same session, then frames. Bytes on the way, or in a
    reader's buffer, are the unread bytes of each direction; either end may give
    up at any time (a lost link, a timeout, an agent that closes after info). */
module Lockstep {
  import opened Prelude
  import opened Frames
  import opened Proofs
  import opened Control
  import Transport
  import opened AgentConn

  /** What stays fixed on a connection: each end's key, the channel binding and
      the nonce the agent drew. */
  datatype Ends = Ends(codec: Codec, key: Key, agentKey: Key, cb: bytes, nonce: bytes)

  ghost predicate EndsOk(k: Ends) {
    Faithful(k.codec) && k.nonce != [] && Solid(k.nonce) && OneLine(k.nonce)
  }

  datatype Exchange = Exchange(req: Request, reply: Envelope)

  datatype ClientPc =
    | Greeted                                   // waiting for the greeting
    | Asking(req: Request, opening: bool)       // waiting for a reply
    | Idle                                      // a session, ready for Do
    | Streams(req: Request)
    | Over                                      // refused, or tunnelled

  datatype AgentPc =
    | Fresh
    | Listening(first: bool)
    | Handling(req: Request)
    | Spawned(req: Request)                     // the process runs, no reply yet
    | Serving(req: Request)
    | Ended

  /** cLog, aLog      the exchanges each end has seen to their end
      cFrames, aGot   the frames the client sent and those the agent has read
      aFrames, cGot   the same for the other direction
      started         the number of processes started on this connection */
  datatype State = State(
    client: ClientPc, clientUp: bool, agent: AgentPc, agentUp: bool,
    toAgent: bytes, toClient: bytes, cLog: seq<Exchange>, aLog: seq<Exchange>,
    cFrames: seq<Frame>, aGot: seq<Frame>, aFrames: seq<Frame>, cGot: seq<Frame>, started: nat)

  const START := State(Greeted, true, Fresh, true, [], [], [], [], [], [], [], [], 0)

  datatype Event =
    | AgentGreets | AgentReads | AgentSpawns | AgentReplies(w: World) | AgentEnds
    | AgentSends(f: Frame) | AgentGets
    | ClientOpens(req: Request) | ClientReads | ClientDoes(req: Request) | ClientEnds
    | ClientSends(f: Frame) | ClientGets

  function Granted(k: Ends): Proof {
    ServerProof(k.agentKey, k.nonce, k.cb)
  }

  /** A request handleRun or handleRunDir would set up. */
  predicate Runnable(req: Request) {
    req.op.Run? && req.cmd != [] && req.v >= VERSION
  }

  predicate TreeReceived(fs: seq<Frame>) {
    exists i :: 0 <= i < |fs| && fs[i].kind == IN_END
  }

  predicate Enabled(k: Ends, s: State, e: Event) {
    match e
    case AgentGreets => s.agentUp && s.agent.Fresh?
    case AgentReads => s.agentUp && s.agent.Listening? && ReadLine(s.toAgent).GotLine?
    case AgentSpawns =>
      && s.agentUp && s.started == 0
      && ((s.agent.Handling? && Runnable(s.agent.req) && !s.agent.req.dir)
          || (s.agent.Serving? && s.agent.req.dir && TreeReceived(s.aGot)))
    case AgentReplies(w) =>
      && s.agentUp
      && (match s.agent
          case Handling(req) => !(req.op.Run? && !req.dir && ReplyTo(w, Granted(k), req).ok)
          case Spawned(req) => ReplyTo(w, Granted(k), req).ok
          case _ => false)
    case AgentEnds => true
    case AgentSends(f) => s.agentUp && s.agent.Serving? && Fits(f)
    case AgentGets => s.agentUp && s.agent.Serving? && ReadFrame(s.toAgent).Got?
    case ClientOpens(req) => s.clientUp && s.client.Greeted? && ReadLine(s.toClient).GotLine?
    case ClientReads => s.clientUp && s.client.Asking? && ReadLine(s.toClient).GotLine?
    case ClientDoes(req) => s.clientUp && s.client.Idle?
    case ClientEnds => true
    case ClientSends(f) => s.clientUp && s.client.Streams? && Fits(f)
    case ClientGets => s.clientUp && s.client.Streams? && ReadFrame(s.toClient).Got?
  }

  /** The agent has one request in hand. */
  function Take(k: Ends, s: State, first: bool): State {
    match FollowUp(k.codec, s.toAgent)
    case NoMore => s.(agent := Ended, toAgent := Transport.AfterLine(s.toAgent))
    case Next(req, rest) =>
      var t := s.(toAgent := rest);
      if first && req.hmac != ClientProof(k.agentKey, k.nonce, k.cb)
      then Reply(k, t, req, Refusal(Unauthorized), Ended)
      else t.(agent := Handling(req))
  }

  function Reply(k: Ends, s: State, req: Request, reply: Envelope, pc: AgentPc): State {
    s.(agent := pc, toClient := s.toClient + Line(k.codec.encEnv(reply)), aLog := s.aLog + [Exchange(req, reply)])
  }

  /** Where handleConn goes after its reply. */
  function AfterReply(req: Request, reply: Envelope): AgentPc {
    if req.op.Info? then Listening(false)
    else if req.op.Run? && reply.ok then Serving(req)
    else Ended
  }

  function Ask(k: Ends, s: State, req: Request, opening: bool): State {
    s.(client := Asking(req, opening), toAgent := s.toAgent + Line(k.codec.encReq(req)))
  }

  /** The reply Open or Do makes of the bytes at hand. */
  function AnswerTo(k: Ends, s: State): Transport.Answer {
    var a := Transport.AnswerIn(k.codec, s.toClient);
    if s.client.Asking? && s.client.opening then Transport.Verified(a, ServerProof(k.key, k.nonce, k.cb)) else a
  }

  function Step(k: Ends, s: State, e: Event): State
    requires Enabled(k, s, e)
  {
    match e
    case AgentGreets => s.(agent := Listening(true), toClient := s.toClient + Line(Greeting(k.nonce)))
    case AgentReads => Take(k, s, s.agent.first)
    case AgentSpawns =>
      s.(started := s.started + 1, agent := if s.agent.Handling? then Spawned(s.agent.req) else s.agent)
    case AgentReplies(w) =>
      var req := s.agent.req;
      var reply := ReplyTo(w, Granted(k), req);
      Reply(k, s, req, reply, AfterReply(req, reply))
    case AgentEnds => s.(agentUp := false)
    case AgentSends(f) => s.(aFrames := s.aFrames + [f], toClient := s.toClient + Encode(f))
    case AgentGets =>
      var got := ReadFrame(s.toAgent);
      s.(aGot := s.aGot + [got.frame], toAgent := got.rest)
    case ClientOpens(req) =>
      var t := s.(toClient := Transport.AfterLine(s.toClient));
      (match ParseGreeting(ReadLine(s.toClient).text)
       case None => t.(client := Over)
       case Some(nonce) => Ask(k, t, Transport.Opening(k.key, k.cb, nonce, req), true))
    case ClientReads =>
      var req := s.client.req;
      var t := s.(toClient := Transport.AfterLine(s.toClient));
      var env := k.codec.decEnv(ReadLine(s.toClient).text);
      var logged := if env.Some? then t.(cLog := s.cLog + [Exchange(req, env.value)]) else t;
      if !AnswerTo(k, s).Accepted? || req.op.Dial? then logged.(client := Over)
      else if req.op.Run? then logged.(client := Streams(req))
      else logged.(client := Idle)
    case ClientDoes(req) => Ask(k, s, req.(v := VERSION), false)
    case ClientEnds => s.(clientUp := false)
    case ClientSends(f) => s.(cFrames := s.cFrames + [f], toAgent := s.toAgent + Encode(f))
    case ClientGets =>
      var got := ReadFrame(s.toClient);
      s.(cGot := s.cGot + [got.frame], toClient := got.rest)
  }

  ghost predicate Reaches(k: Ends, s: State, es: seq<Event>, t: State)
    decreases |es|
  {
    if es == [] then s == t
    else Enabled(k, s, es[0]) && Reaches(k, Step(k, s, es[0]), es[1..], t)
  }

  // ---- The invariant ----

  /** The agent's last exchange answers req, and only the client has yet to see it. */
  predicate Answered(k: Ends, s: State, req: Request) {
    && |s.aLog| == |s.cLog| + 1 && s.aLog[..|s.cLog|] == s.cLog
    && s.aLog[|s.cLog|].req == req
    && (s.aLog[|s.cLog|].reply.ok ==> s.aLog[|s.cLog|].reply.proof == Granted(k))
  }

  function ReplyBytes(k: Ends, s: State): bytes
    requires s.aLog != []
  {
    Line(k.codec.encEnv(s.aLog[|s.aLog| - 1].reply))
  }

  predicate NoFrames(s: State) {
    s.cFrames == [] && s.aGot == [] && s.cGot == []
  }

  predicate Quiet(s: State) {
    s.toAgent == [] && s.toClient == []
  }

  /** The client waits for a reply to req. */
  ghost predicate AskingOk(k: Ends, s: State, req: Request, opening: bool) {
    && NoFrames(s) && AllFit(s.aFrames)
    && (!s.agent.Serving? ==> s.aFrames == [])
    && match s.agent
       case Fresh => false
       case Listening(first) =>
         if first || s.aLog == s.cLog then
           first == opening && s.aLog == s.cLog && s.toAgent == Line(k.codec.encReq(req)) && s.toClient == []
         else
           && Answered(k, s, req) && req.op.Info? && s.aLog[|s.cLog|].reply.ok
           && s.toAgent == [] && s.toClient == ReplyBytes(k, s)
       case Handling(q) => q == req && s.aLog == s.cLog && Quiet(s)
       case Spawned(q) => q == req && s.aLog == s.cLog && Quiet(s)
       case Serving(q) =>
         && q == req && Answered(k, s, req) && req.op.Run? && s.aLog[|s.cLog|].reply.ok
         && s.toAgent == [] && s.toClient == ReplyBytes(k, s) + EncodeAll(s.aFrames)
       case Ended =>
         && Answered(k, s, req) && s.toAgent == [] && s.toClient == ReplyBytes(k, s)
         && (s.aLog[|s.cLog|].reply.ok ==> req.op.Dial?)
  }

  /** Both directions hold exactly the frames sent and not yet read. */
  ghost predicate StreamsOk(s: State) {
    && s.aGot <= s.cFrames && s.cGot <= s.aFrames
    && AllFit(s.cFrames) && AllFit(s.aFrames)
    && s.toAgent == EncodeAll(s.cFrames[|s.aGot|..])
    && s.toClient == EncodeAll(s.aFrames[|s.cGot|..])
  }

  predicate LastRefused(s: State) {
    s.cLog != [] && (!s.cLog[|s.cLog| - 1].reply.ok || s.cLog[|s.cLog| - 1].req.op.Dial?)
  }

  ghost predicate WiresOk(k: Ends, s: State) {
    match s.client
    case Greeted =>
      && NoFrames(s) && s.aFrames == [] && s.cLog == [] && s.aLog == [] && s.toAgent == []
      && (if s.agent.Fresh? then s.toClient == []
          else s.agent == Listening(true) && s.toClient == Line(Greeting(k.nonce)))
    case Asking(req, opening) =>
      && (opening ==> req.hmac == ClientProof(k.key, k.nonce, k.cb))
      && AskingOk(k, s, req, opening)
    case Idle => s.agent == Listening(false) && s.aLog == s.cLog && Quiet(s) && NoFrames(s) && s.aFrames == []
    case Streams(req) => s.agent == Serving(req) && s.aLog == s.cLog && StreamsOk(s)
    case Over => s.agent.Ended? && s.aLog == s.cLog && LastRefused(s)
  }

  /** The agent goes past its first request only under the client's key. */
  predicate KeysOk(k: Ends, s: State) {
    s.agent.Fresh? || s.agent == Listening(true) || s.agent.Ended? || k.key == k.agentKey
  }

  /** When a process has been started. */
  predicate StartedOk(s: State) {
    match s.agent
    case Spawned(req) => s.started == 1 && Runnable(req) && !req.dir
    case Serving(req) =>
      && Runnable(req)
      && (if req.dir then s.started <= 1 && (s.started == 1 ==> s.aGot != []) else s.started == 1)
    case _ => s.started == 0
  }

  /** The reply of an exchange is what this agent may say to its request. */
  ghost predicate Answers(k: Ends, x: Exchange) {
    || (exists w :: x.reply == ReplyTo(w, Granted(k), x.req))
    || (x.reply == Refusal(Unauthorized) && x.req.hmac != ClientProof(k.agentKey, k.nonce, k.cb))
  }

  ghost predicate LogOk(k: Ends, s: State) {
    forall i :: 0 <= i < |s.aLog| ==> Answers(k, s.aLog[i])
  }

  ghost predicate Inv(k: Ends, s: State) {
    WiresOk(k, s) && KeysOk(k, s) && StartedOk(s) && AllFit(s.aFrames)
  }

  // ---- Preservation ----

  lemma AgentReadsInv(k: Ends, s: State)
    requires EndsOk(k) && Inv(k, s) && Enabled(k, s, AgentReads)
    ensures Inv(k, Step(k, s, AgentReads))
  {
    var q := s.client.req;
    assert s.toAgent == Line(k.codec.encReq(q)) + [];
    ReadOwnLine(k.codec.encReq(q), []);
    assert FollowUp(k.codec, s.toAgent) == Next(q, []);
  }

  lemma AgentRepliesInv(k: Ends, s: State, w: World)
    requires EndsOk(k) && Inv(k, s) && Enabled(k, s, AgentReplies(w))
    ensures Inv(k, Step(k, s, AgentReplies(w)))
  {
    var t := Step(k, s, AgentReplies(w));
    assert t.aLog[..|s.cLog|] == s.cLog;
    assert EncodeAll([]) == [];
  }

  lemma AgentSendsInv(k: Ends, s: State, f: Frame)
    requires EndsOk(k) && Inv(k, s) && Enabled(k, s, AgentSends(f))
    ensures Inv(k, Step(k, s, AgentSends(f)))
  {
    if s.client.Streams? {
      EncodeAllSnoc(s.aFrames[|s.cGot|..], f);
      assert (s.aFrames + [f])[|s.cGot|..] == s.aFrames[|s.cGot|..] + [f];
    } else {
      AgentSendsAhead(k, s, f);
    }
  }

  /** Frames may follow the run reply before the client has read it. */
  lemma AgentSendsAhead(k: Ends, s: State, f: Frame)
    requires EndsOk(k) && Inv(k, s) && Enabled(k, s, AgentSends(f)) && s.client.Asking?
    ensures Inv(k, Step(k, s, AgentSends(f)))
  {
    var t := Step(k, s, AgentSends(f));
    EncodeAllSnoc(s.aFrames, f);
    assert t.toClient == ReplyBytes(k, s) + (EncodeAll(s.aFrames) + Encode(f));
  }

  lemma ClientSendsInv(k: Ends, s: State, f: Frame)
    requires EndsOk(k) && Inv(k, s) && Enabled(k, s, ClientSends(f))
    ensures Inv(k, Step(k, s, ClientSends(f)))
  {
    EncodeAllSnoc(s.cFrames[|s.aGot|..], f);
    assert (s.cFrames + [f])[|s.aGot|..] == s.cFrames[|s.aGot|..] + [f];
  }

  /** Reading from the encoding of the frames after the first n takes frame n. */
  lemma ReadsNext(fs: seq<Frame>, n: nat)
    requires n <= |fs| && AllFit(fs) && ReadFrame(EncodeAll(fs[n..])).Got?
    ensures n < |fs| && ReadFrame(EncodeAll(fs[n..])) == Got(fs[n], EncodeAll(fs[n + 1..]))
    ensures fs[..n] + [fs[n]] == fs[..n + 1]
  {
    var left := fs[n..];
    if left == [] {
      assert false;
    } else {
      assert left[1..] == fs[n + 1..];
      ReadEncoded(fs[n], EncodeAll(fs[n + 1..]));
    }
  }

  lemma AgentGetsInv(k: Ends, s: State)
    requires EndsOk(k) && Inv(k, s) && Enabled(k, s, AgentGets)
    ensures Inv(k, Step(k, s, AgentGets))
  {
    if s.client.Streams? {
      ReadsNext(s.cFrames, |s.aGot|);
    }
  }

  lemma ClientGetsInv(k: Ends, s: State)
    requires EndsOk(k) && Inv(k, s) && Enabled(k, s, ClientGets)
    ensures Inv(k, Step(k, s, ClientGets))
  {
    ReadsNext(s.aFrames, |s.cGot|);
  }

  lemma ClientOpensInv(k: Ends, s: State, req: Request)
    requires EndsOk(k) && Inv(k, s) && Enabled(k, s, ClientOpens(req))
    ensures Inv(k, Step(k, s, ClientOpens(req)))
  {
    var hello := Greeting(k.nonce);
    assert s.toClient == Line(hello) + [];
    assert OneLine(hello);
    ReadOwnLine(hello, []);
    GreetingParses(k.nonce, hello);
    assert [] + Line(k.codec.encReq(Transport.Opening(k.key, k.cb, k.nonce, req)))
        == Line(k.codec.encReq(Transport.Opening(k.key, k.cb, k.nonce, req)));
  }

  /** What the client makes of the agent's reply; this agent's proof is good. */
  function AfterAnswer(req: Request, reply: Envelope): ClientPc {
    if !reply.ok || req.op.Dial? then Over else if req.op.Run? then Streams(req) else Idle
  }

  lemma ClientReadsTo(k: Ends, s: State)
    requires EndsOk(k) && Inv(k, s) && Enabled(k, s, ClientReads)
    ensures |s.aLog| == |s.cLog| + 1 && AllFit(s.aFrames)
    ensures Step(k, s, ClientReads) ==
              s.(client := AfterAnswer(s.client.req, s.aLog[|s.cLog|].reply),
                 cLog := s.aLog, toClient := EncodeAll(s.aFrames))
  {
    ReplyAtHand(k, s);
    assert s.cLog + [s.aLog[|s.cLog|]] == s.aLog;
  }

  lemma ClientReadsInv(k: Ends, s: State)
    requires EndsOk(k) && Inv(k, s) && Enabled(k, s, ClientReads)
    ensures Inv(k, Step(k, s, ClientReads))
  {
    ClientReadsTo(k, s);
    assert s.aFrames[0..] == s.aFrames;
  }

  /** A waiting client that can read a line reads the agent's last reply, and
      leaves what the agent has sent after it. */
  lemma ReplyAtHand(k: Ends, s: State)
    requires EndsOk(k) && Inv(k, s) && Enabled(k, s, ClientReads)
    ensures |s.aLog| == |s.cLog| + 1 && AllFit(s.aFrames)
    ensures ReadLine(s.toClient) == GotLine(k.codec.encEnv(s.aLog[|s.cLog|].reply), EncodeAll(s.aFrames))
  {
    assert s.toClient != [];
    var reply := k.codec.encEnv(s.aLog[|s.cLog|].reply);
    var rest := if s.agent.Serving? then EncodeAll(s.aFrames) else [];
    assert rest == EncodeAll(s.aFrames);
    assert s.toClient == Line(reply) + rest;
    ReadOwnLine(reply, rest);
  }

  predicate AgentEvent(e: Event) {
    e.AgentGreets? || e.AgentReads? || e.AgentSpawns? || e.AgentReplies? || e.AgentSends? || e.AgentGets?
  }

  lemma AgentStepInv(k: Ends, s: State, e: Event)
    requires EndsOk(k) && Inv(k, s) && Enabled(k, s, e) && AgentEvent(e)
    ensures Inv(k, Step(k, s, e))
  {
    match e
    case AgentGreets => AgentGreetsInv(k, s);
    case AgentReads => AgentReadsInv(k, s);
    case AgentSpawns => AgentSpawnsInv(k, s);
    case AgentReplies(w) => AgentRepliesInv(k, s, w);
    case AgentSends(f) => AgentSendsInv(k, s, f);
    case AgentGets => AgentGetsInv(k, s);
  }

  lemma ClientStepInv(k: Ends, s: State, e: Event)
    requires EndsOk(k) && Inv(k, s) && Enabled(k, s, e)
    requires e.ClientOpens? || e.ClientReads? || e.ClientDoes? || e.ClientSends? || e.ClientGets?
    ensures Inv(k, Step(k, s, e))
  {
    match e
    case ClientOpens(req) => ClientOpensInv(k, s, req);
    case ClientReads => ClientReadsInv(k, s);
    case ClientDoes(req) => ClientDoesInv(k, s, req);
    case ClientSends(f) => ClientSendsInv(k, s, f);
    case ClientGets => ClientGetsInv(k, s);
  }

  lemma EndsInv(k: Ends, s: State, e: Event)
    requires Inv(k, s) && (e.AgentEnds? || e.ClientEnds?)
    ensures Inv(k, Step(k, s, e))
  {
  }

  lemma StepInv(k: Ends, s: State, e: Event)
    requires EndsOk(k) && Inv(k, s) && Enabled(k, s, e)
    ensures Inv(k, Step(k, s, e))
  {
    if AgentEvent(e) {
      AgentStepInv(k, s, e);
    } else if e.AgentEnds? || e.ClientEnds? {
      EndsInv(k, s, e);
    } else {
      ClientStepInv(k, s, e);
    }
  }

  lemma AgentGreetsInv(k: Ends, s: State)
    requires EndsOk(k) && Inv(k, s) && Enabled(k, s, AgentGreets)
    ensures Inv(k, Step(k, s, AgentGreets))
  {
  }

  lemma AgentSpawnsInv(k: Ends, s: State)
    requires EndsOk(k) && Inv(k, s) && Enabled(k, s, AgentSpawns)
    ensures Inv(k, Step(k, s, AgentSpawns))
  {
  }

  lemma ClientDoesInv(k: Ends, s: State, req: Request)
    requires EndsOk(k) && Inv(k, s) && Enabled(k, s, ClientDoes(req))
    ensures Inv(k, Step(k, s, ClientDoes(req)))
  {
    var q := req.(v := VERSION);
    assert [] + Line(k.codec.encReq(q)) == Line(k.codec.encReq(q));
  }

  lemma LogStep(k: Ends, s: State, e: Event)
    requires LogOk(k, s) && Enabled(k, s, e)
    ensures LogOk(k, Step(k, s, e))
  {
    var t := Step(k, s, e);
    forall i | 0 <= i < |t.aLog| ensures Answers(k, t.aLog[i]) {
      if i < |s.aLog| {
        assert t.aLog[i] == s.aLog[i];
      } else if e.AgentReplies? {
        assert t.aLog[i].reply == ReplyTo(e.w, Granted(k), t.aLog[i].req);
      }
    }
  }

  lemma {:induction false} RunInv(k: Ends, s: State, es: seq<Event>, t: State)
    requires EndsOk(k) && Inv(k, s) && LogOk(k, s) && Reaches(k, s, es, t)
    ensures Inv(k, t) && LogOk(k, t)
    decreases |es|
  {
    if es != [] {
      StepInv(k, s, es[0]);
      LogStep(k, s, es[0]);
      RunInv(k, Step(k, s, es[0]), es[1..], t);
    }
  }

  // ---- Main results ----

  /** In every reachable state the two ends have seen the same exchanges, but for
      at most one reply on its way, which answers the request the client waits
      on; and every reply is one this agent gives to that very request. */
  lemma OneReplyEach(k: Ends, es: seq<Event>, t: State)
    requires EndsOk(k) && Reaches(k, START, es, t)
    ensures t.cLog <= t.aLog && |t.aLog| <= |t.cLog| + 1
    ensures |t.aLog| > |t.cLog| ==> t.client.Asking? && t.aLog[|t.cLog|].req == t.client.req
    ensures forall i :: 0 <= i < |t.aLog| ==> Answers(k, t.aLog[i])
  {
    RunInv(k, START, es, t);
  }

  /** A client that still waits and an agent that is still up never wait for each
      other: exactly one of them can go on. */
  lemma NeverBothWait(k: Ends, es: seq<Event>, t: State)
    requires EndsOk(k) && Reaches(k, START, es, t)
    requires t.clientUp && t.agentUp && (t.client.Greeted? || t.client.Asking?)
    ensures ReadLine(t.toClient).GotLine?
        <==> !(Enabled(k, t, AgentGreets) || Enabled(k, t, AgentReads) || t.agent.Handling? || t.agent.Spawned?)
  {
    RunInv(k, START, es, t);
    var none: bytes := [];
    assert ReadLine(none).NoLine?;
    match t.client
    case Greeted =>
      if !t.agent.Fresh? {
        var hello := Greeting(k.nonce);
        assert t.toClient == Line(hello) + [];
        assert OneLine(hello);
        ReadOwnLine(hello, []);
      }
    case Asking(req, _) =>
      if |t.aLog| > |t.cLog| {
        var reply := k.codec.encEnv(t.aLog[|t.cLog|].reply);
        var rest := if t.agent.Serving? then EncodeAll(t.aFrames) else [];
        assert t.toClient == Line(reply) + rest;
        ReadOwnLine(reply, rest);
      } else if t.agent.Listening? {
        assert t.toAgent == Line(k.codec.encReq(req)) + [];
        ReadOwnLine(k.codec.encReq(req), []);
      }
  }

  /** After the run reply both buffered readers hold exactly the frames the other
      end sent and they have not read, whatever bytes the payloads contain. */
  lemma FramesDecodeExactly(k: Ends, es: seq<Event>, t: State)
    requires EndsOk(k) && Reaches(k, START, es, t) && t.client.Streams?
    ensures t.agent == Serving(t.client.req)
    ensures t.aGot + ReadAll(t.toAgent).frames == t.cFrames
    ensures t.cGot + ReadAll(t.toClient).frames == t.aFrames
  {
    RunInv(k, START, es, t);
    UnreadDecodes(t.aGot, t.cFrames, t.toAgent);
    UnreadDecodes(t.cGot, t.aFrames, t.toClient);
  }

  lemma UnreadDecodes(got: seq<Frame>, sent: seq<Frame>, unread: bytes)
    requires got <= sent && AllFit(sent) && unread == EncodeAll(sent[|got|..])
    ensures got + ReadAll(unread).frames == sent
  {
    ReadAllEncoded(sent[|got|..]);
  }

  /** So a session reused after any number of info exchanges streams as a fresh
      one does: the bytes in flight depend on the frames alone. */
  lemma ReusedAsFresh(k: Ends, es: seq<Event>, s: State, k': Ends, es': seq<Event>, t: State)
    requires EndsOk(k) && Reaches(k, START, es, s) && s.client.Streams?
    requires EndsOk(k') && Reaches(k', START, es', t) && t.client.Streams?
    requires s.cFrames == t.cFrames && s.aGot == t.aGot && s.aFrames == t.aFrames && s.cGot == t.cGot
    ensures s.toAgent == t.toAgent && s.toClient == t.toClient
  {
    RunInv(k, START, es, s);
    RunInv(k', START, es', t);
  }

  /** The client's proof check never turns down this agent: a session ends early
      only because the agent's own reply refused (or a tunnel took it over), and
      an agent holding another key accepts nothing. */
  lemma OnlyTheAgentRefuses(k: Ends, es: seq<Event>, t: State)
    requires EndsOk(k) && Reaches(k, START, es, t)
    ensures t.client.Over? ==> LastRefused(t)
    ensures t.client.Idle? || t.client.Streams? ==> k.key == k.agentKey
    ensures t.client.Asking? && t.agent.Handling? ==> k.key == k.agentKey
  {
    RunInv(k, START, es, t);
  }
}
