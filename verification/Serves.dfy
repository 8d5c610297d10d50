/** What serving a connection comes to, and that the agent's steps, interleaved
    with the client's in any way, are exactly that. */
module Serves {
  import opened Prelude
  import opened Frames
  import opened Proofs
  import opened Control
  import Transport
  import opened AgentConn
  import opened Lockstep

  // ---- What the replies are ----

  /** The reply to an authenticated request, on the request's own fields: what is
      granted, and which refusal each request gets. */
  lemma ReplyMeaning(w: World, proof: Proof, req: Request, r: Envelope)
    requires r == ReplyTo(w, proof, req)
    ensures r.ok ==> r.proof == proof && r.code == NoCode
    ensures req.op.Info? ==> r.ok && r.capacity == w.info
    ensures req.op.Run? ==>
              && (r.ok <==> req.cmd != [] && req.v >= 3 && w.setUp(req) != Spawn && w.setUp(req) != Internal)
              && (r.code == EmptyCmd <==> req.cmd == [])
              && (r.code == Version <==> req.cmd != [] && req.v < 3)
              && (!r.ok && req.cmd != [] && req.v >= 3 ==> r.code == w.setUp(req))
    ensures req.op.Dial? ==>
              && (r.ok <==> req.host != "" && w.setUp(req) != Spawn && w.setUp(req) != Internal)
              && (req.host == "" ==> r.code == Internal)
              && (!r.ok && req.host != "" ==> r.code == w.setUp(req))
    ensures req.op.Other? ==> !r.ok && r.code == Internal
  {
  }

  /** reqs are the requests on the next lines of unread, and rest follows them. */
  ghost predicate ReadsAs(c: Codec, unread: bytes, reqs: seq<Request>, rest: bytes)
    decreases |reqs|
  {
    if reqs == [] then rest == unread
    else
      && ReadLine(unread).GotLine? && c.decReq(ReadLine(unread).text) == Some(reqs[0])
      && ReadsAs(c, ReadLine(unread).rest, reqs[1..], rest)
  }

  /** The transcript of a service: one reply to each request on the lines read, all
      but the last of them info requests; the connection is left to a run exactly
      when the last is a run that was granted, with the bytes after its line, to a
      tunnel likewise, and otherwise it is shut. */
  lemma {:induction false} ServeMeaning(c: Codec, w: World, proof: Proof, req: Request, unread: bytes)
    returns (reqs: seq<Request>, rest: bytes)
    ensures var s := Serve(c, w, proof, req, unread);
            var last := |reqs| - 1;
            && |s.replies| == |reqs| > 0 && reqs[0] == req && ReadsAs(c, unread, reqs[1..], rest)
            && (forall i :: 0 <= i < |reqs| ==> s.replies[i] == ReplyTo(w, proof, reqs[i]))
            && (forall i :: 0 <= i < last ==> reqs[i].op.Info?)
            && (reqs[last].op.Info? ==> FollowUp(c, rest).NoMore?)
            && s.end == (if reqs[last].op.Run? && s.replies[last].ok then Running(reqs[last], rest)
                         else if reqs[last].op.Dial? && s.replies[last].ok then Tunnel(reqs[last])
                         else Shut)
    decreases |unread|
  {
    reqs, rest := [req], unread;
    if req.op.Info? && FollowUp(c, unread).Next? {
      var n := FollowUp(c, unread);
      var more;
      more, rest := ServeMeaning(c, w, proof, n.req, n.rest);
      reqs := [req] + more;
      MoreRead(c, unread, more, rest);
    }
  }

  lemma MoreRead(c: Codec, unread: bytes, more: seq<Request>, rest: bytes)
    requires more != [] && ReadLine(unread).GotLine?
    requires FollowUp(c, unread) == Next(more[0], ReadLine(unread).rest)
    requires ReadsAs(c, ReadLine(unread).rest, more[1..], rest)
    ensures ReadsAs(c, unread, more, rest)
  {
  }

  /** Nothing is granted without the proof in the first request, and with it the
      connection is served from that request on. */
  lemma AttendMeaning(c: Codec, w: World, key: Key, nonce: bytes, cb: bytes, unread: bytes, first: Next, s: Service)
    requires first == FollowUp(c, unread) && s == Attend(c, w, key, nonce, cb, unread)
    ensures first.NoMore? ==> s == Service([], Shut)
    ensures first.Next? && first.req.hmac != ClientProof(key, nonce, cb) ==> s == Service([Refusal(Unauthorized)], Shut)
    ensures first.Next? && first.req.hmac == ClientProof(key, nonce, cb) ==>
              && s == Serve(c, w, ServerProof(key, nonce, cb), first.req, first.rest)
              && s.replies != [] && s.replies[0] == ReplyTo(w, ServerProof(key, nonce, cb), first.req)
    ensures s.end.Running? ==>
              && s.end.req.op.Run? && s.end.req.cmd != [] && s.end.req.v >= 3
              && w.setUp(s.end.req) != Spawn && w.setUp(s.end.req) != Internal
  {
    if first.Next? && first.req.hmac == ClientProof(key, nonce, cb) {
      var proof := ServerProof(key, nonce, cb);
      var reqs, left := ServeMeaning(c, w, proof, first.req, first.rest);
      var last := reqs[|reqs| - 1];
      ReplyMeaning(w, proof, last, ReplyTo(w, proof, last));
    }
  }

  // ---- The machine's agent does just that ----

  /** What an event puts on the way to the agent. */
  function SentBy(k: Ends, s: State, e: Event): bytes
    requires Enabled(k, s, e)
  {
    match e
    case ClientOpens(req) =>
      (match ParseGreeting(ReadLine(s.toClient).text)
       case None => []
       case Some(nonce) => Line(k.codec.encReq(Transport.Opening(k.key, k.cb, nonce, req))))
    case ClientDoes(req) => Line(k.codec.encReq(req.(v := VERSION)))
    case ClientSends(f) => Encode(f)
    case _ => []
  }

  /** All that a run puts on the way to the agent. */
  ghost function SentAll(k: Ends, s: State, es: seq<Event>, t: State): bytes
    requires Reaches(k, s, es, t)
    decreases |es|
  {
    if es == [] then [] else SentBy(k, s, es[0]) + SentAll(k, Step(k, s, es[0]), es[1..], t)
  }

  /** The world answers as w does. */
  ghost predicate Steady(w: World, s: State, e: Event) {
    && (e.AgentReplies? ==> e.w == w)
    && (e.AgentSpawns? && s.agent.Handling? ==> !IsFailure(w.setUp(s.agent.req)))
  }

  ghost predicate AllSteady(k: Ends, w: World, s: State, es: seq<Event>, t: State)
    requires Reaches(k, s, es, t)
    decreases |es|
  {
    es == [] || (Steady(w, s, es[0]) && AllSteady(k, w, Step(k, s, es[0]), es[1..], t))
  }

  function Replies(log: seq<Exchange>): seq<Envelope> {
    seq(|log|, i requires 0 <= i < |log| => log[i].reply)
  }

  /** How an agent that is done left the connection. */
  function EndOf(log: seq<Exchange>): End {
    if log != [] && log[|log| - 1].reply.ok && log[|log| - 1].req.op.Dial? then Tunnel(log[|log| - 1].req) else Shut
  }

  /** What the agent will still do, if f is all that arrives beyond what has been sent. */
  function Remaining(k: Ends, w: World, s: State, f: bytes): Service
    requires AllFit(s.aGot)
  {
    var unread := s.toAgent + f;
    match s.agent
    case Fresh => Attend(k.codec, w, k.agentKey, k.nonce, k.cb, unread)
    case Listening(first) =>
      if first then Attend(k.codec, w, k.agentKey, k.nonce, k.cb, unread)
      else
        (match FollowUp(k.codec, unread)
         case NoMore => Service([], Shut)
         case Next(req, rest) => Serve(k.codec, w, Granted(k), req, rest))
    case Handling(req) => Serve(k.codec, w, Granted(k), req, unread)
    case Spawned(req) => Service([ReplyTo(w, Granted(k), req)], Running(req, unread))
    case Serving(req) => Service([], Running(req, EncodeAll(s.aGot) + unread))
    case Ended => Service([], EndOf(s.aLog))
  }

  ghost predicate ServeOk(s: State) {
    && AllFit(s.aGot)
    && (s.agent.Fresh? || s.agent.Listening? ==> EndOf(s.aLog) == Shut)
    && (s.agent.Spawned? ==> s.agent.req.op.Run?)
    && (!s.agent.Serving? ==> s.aGot == [])
  }

  /** A line that has arrived is read the same whatever arrives after it. */
  lemma FollowUpMore(c: Codec, u: bytes, f: bytes)
    requires ReadLine(u).GotLine?
    ensures match FollowUp(c, u)
            case NoMore => FollowUp(c, u + f) == NoMore
            case Next(req, rest) => FollowUp(c, u + f) == Next(req, rest + f)
  {
    var text, rest := ReadLine(u).text, ReadLine(u).rest;
    ReadLineSplits(u, text, rest);
    assert Line(text) + rest + f == Line(text) + (rest + f);
    ReadLineSplits(u + f, text, rest + f);
  }

  /** e's step from s to t: with the replies it logs, the agent does what it was
      going to do. */
  ghost predicate KeepsCourse(k: Ends, w: World, s: State, sent: bytes, t: State, f: bytes) {
    && ServeOk(s) && ServeOk(t) && s.aLog <= t.aLog
    && After(Replies(t.aLog[|s.aLog|..]), Remaining(k, w, t, f)) == Remaining(k, w, s, sent + f)
  }

  lemma ReadsOnCourse(k: Ends, w: World, s: State, f: bytes)
    requires ServeOk(s) && Enabled(k, s, AgentReads)
    ensures KeepsCourse(k, w, s, [], Step(k, s, AgentReads), f)
  {
    FollowUpMore(k.codec, s.toAgent, f);
    assert [] + f == f;
    ReadLineSplits(s.toAgent, ReadLine(s.toAgent).text, ReadLine(s.toAgent).rest);
  }

  lemma RepliesOnCourse(k: Ends, w: World, s: State, f: bytes)
    requires ServeOk(s) && Enabled(k, s, AgentReplies(w))
    ensures KeepsCourse(k, w, s, [], Step(k, s, AgentReplies(w)), f)
  {
    var t := Step(k, s, AgentReplies(w));
    var reply := ReplyTo(w, Granted(k), s.agent.req);
    assert [] + f == f;
    assert t.aLog[|s.aLog|..] == [Exchange(s.agent.req, reply)];
    assert Replies(t.aLog[|s.aLog|..]) == [reply];
    assert EncodeAll([]) + (s.toAgent + f) == s.toAgent + f;
  }

  lemma SpawnsOnCourse(k: Ends, w: World, s: State, f: bytes)
    requires ServeOk(s) && Enabled(k, s, AgentSpawns) && Steady(w, s, AgentSpawns)
    ensures KeepsCourse(k, w, s, [], Step(k, s, AgentSpawns), f)
  {
    assert [] + f == f;
    assert Replies([]) == [];
  }

  lemma GetsOnCourse(k: Ends, w: World, s: State, f: bytes)
    requires ServeOk(s) && Enabled(k, s, AgentGets)
    ensures KeepsCourse(k, w, s, [], Step(k, s, AgentGets), f)
  {
    var got := ReadFrame(s.toAgent);
    ReadIsEncoding(s.toAgent);
    EncodeAllSnoc(s.aGot, got.frame);
    assert EncodeAll(s.aGot) + (s.toAgent + f) == EncodeAll(s.aGot + [got.frame]) + (got.rest + f);
    assert [] + f == f;
    assert Replies([]) == [];
  }

  lemma SentIs(k: Ends, s: State, e: Event)
    requires Enabled(k, s, e)
    requires !e.AgentReads? && !e.AgentReplies? && !e.AgentSpawns? && !e.AgentGets?
    ensures var t := Step(k, s, e);
            t.toAgent == s.toAgent + SentBy(k, s, e) && t.aLog == s.aLog && t.aGot == s.aGot
            && (t.agent == s.agent || (s.agent.Fresh? && t.agent == Listening(true)))
  {
  }

  lemma ClientOnCourse(k: Ends, w: World, s: State, e: Event, f: bytes)
    requires ServeOk(s) && Enabled(k, s, e)
    requires !e.AgentReads? && !e.AgentReplies? && !e.AgentSpawns? && !e.AgentGets?
    ensures KeepsCourse(k, w, s, SentBy(k, s, e), Step(k, s, e), f)
  {
    var t := Step(k, s, e);
    SentIs(k, s, e);
    assert t.toAgent + f == s.toAgent + (SentBy(k, s, e) + f);
    assert t.aLog[|s.aLog|..] == [] && Replies([]) == [];
  }

  lemma StepOnCourse(k: Ends, w: World, s: State, e: Event, f: bytes)
    requires ServeOk(s) && Enabled(k, s, e) && Steady(w, s, e)
    ensures KeepsCourse(k, w, s, SentBy(k, s, e), Step(k, s, e), f)
  {
    match e
    case AgentReads => ReadsOnCourse(k, w, s, f);
    case AgentReplies(_) => RepliesOnCourse(k, w, s, f);
    case AgentSpawns => SpawnsOnCourse(k, w, s, f);
    case AgentGets => GetsOnCourse(k, w, s, f);
    case _ => ClientOnCourse(k, w, s, e, f);
  }

  lemma {:induction false} RunOnCourse(k: Ends, w: World, s: State, es: seq<Event>, t: State, f: bytes)
    requires ServeOk(s) && Reaches(k, s, es, t) && AllSteady(k, w, s, es, t)
    ensures KeepsCourse(k, w, s, SentAll(k, s, es, t), t, f)
    decreases |es|
  {
    if es == [] {
      assert [] + f == f;
      assert s.aLog[|s.aLog|..] == [] && Replies([]) == [];
    } else {
      var u := Step(k, s, es[0]);
      var later := SentAll(k, u, es[1..], t);
      StepOnCourse(k, w, s, es[0], later + f);
      RunOnCourse(k, w, u, es[1..], t, f);
      CourseTrans(k, w, s, SentBy(k, s, es[0]), u, later, t, f);
    }
  }

  lemma CourseTrans(k: Ends, w: World, s: State, a: bytes, u: State, b: bytes, t: State, f: bytes)
    requires KeepsCourse(k, w, s, a, u, b + f) && KeepsCourse(k, w, u, b, t, f)
    ensures KeepsCourse(k, w, s, a + b, t, f)
  {
    assert a + (b + f) == a + b + f;
    TwoLogs(s.aLog, u.aLog, t.aLog);
    var x, y := Replies(u.aLog[|s.aLog|..]), Replies(t.aLog[|u.aLog|..]);
    assert x + (y + Remaining(k, w, t, f).replies) == x + y + Remaining(k, w, t, f).replies;
  }

  lemma TwoLogs(a: seq<Exchange>, b: seq<Exchange>, c: seq<Exchange>)
    requires a <= b <= c
    ensures a <= c && Replies(c[|a|..]) == Replies(b[|a|..]) + Replies(c[|b|..])
  {
  }

  /** In every run of client and agent the agent's replies begin those HandleConn
      would give to the bytes the client sends, whatever else it may send; and
      when the agent is done with replying they are all of them, and it leaves
      the connection as HandleConn does. */
  lemma MachineServes(k: Ends, w: World, es: seq<Event>, t: State, f: bytes)
    requires Reaches(k, START, es, t) && AllSteady(k, w, START, es, t)
    ensures var s := Attend(k.codec, w, k.agentKey, k.nonce, k.cb, SentAll(k, START, es, t) + f);
            && Replies(t.aLog) <= s.replies
            && (t.agent.Serving? || t.agent.Ended? ==> Replies(t.aLog) == s.replies)
            && (t.agent.Serving? ==>
                  AllFit(t.aGot) && s.end == Running(t.agent.req, EncodeAll(t.aGot) + (t.toAgent + f)))
            && (t.agent.Ended? ==> s.end == EndOf(t.aLog))
  {
    RunOnCourse(k, w, START, es, t, f);
    var sent := SentAll(k, START, es, t);
    assert START.toAgent + (sent + f) == sent + f;
    assert t.aLog[0..] == t.aLog;
  }
}
