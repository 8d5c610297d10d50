/** The agent's end of a connection: authenticate once, then serve requests until
    one of them consumes the connection. */
module AgentConn {
  import opened Prelude
  import opened Frames
  import opened FrameIO
  import opened Proofs
  import opened Control

  /** How handleConn leaves the connection. */
  datatype End = Shut | Running(req: Request, rest: bytes) | Tunnel(req: Request)

  /** What the agent cannot decide from the request: its capacity report, and
      whether it can set up the command or the tunnel. */
  datatype World = World(info: string, setUp: Request -> Code)

  predicate IsFailure(code: Code) {
    code == Spawn || code == Internal
  }

  /** The one reply to an authenticated request. */
  function ReplyTo(w: World, proof: Proof, req: Request): Envelope {
    var granted := Envelope(true, NoCode, proof, "");
    match req.op
    case Info => granted.(capacity := w.info)
    case Run =>
      if req.cmd == [] then Refusal(EmptyCmd)
      else if req.v < VERSION then Refusal(Version)
      else if IsFailure(w.setUp(req)) then Refusal(w.setUp(req))
      else granted
    case Dial =>
      if req.host == "" then Refusal(Internal)
      else if IsFailure(w.setUp(req)) then Refusal(w.setUp(req))
      else granted
    case Other(_) => Refusal(Internal)
  }

  datatype Service = Service(replies: seq<Envelope>, end: End)

  datatype Next = Next(req: Request, rest: bytes) | NoMore

  function FollowUp(c: Codec, unread: bytes): (n: Next)
    ensures n.Next? ==> |n.rest| < |unread|
  {
    match ReadLine(unread)
    case NoLine => NoMore
    case GotLine(text, rest) =>
      ReadLineSplits(unread, text, rest);
      match c.decReq(text)
      case None => NoMore
      case Some(req) => Next(req, rest)
  }

  /** What a request other than info leaves the connection to. */
  function Final(req: Request, reply: Envelope, unread: bytes): End {
    if req.op.Run? && reply.ok then Running(req, unread)
    else if req.op.Dial? && reply.ok then Tunnel(req)
    else Shut
  }

  /** The loop of handleConn: req is in hand, unread is what else will arrive. */
  function Serve(c: Codec, w: World, proof: Proof, req: Request, unread: bytes): Service
    decreases |unread|
  {
    var reply := ReplyTo(w, proof, req);
    if !req.op.Info? then Service([reply], Final(req, reply, unread))
    else
      match FollowUp(c, unread)
      case NoMore => Service([reply], Shut)
      case Next(next, rest) =>
        var s := Serve(c, w, proof, next, rest);
        Service([reply] + s.replies, s.end)
  }

  /** Everything after the greeting: the first request must carry the proof. */
  function Attend(c: Codec, w: World, key: Key, nonce: bytes, cb: bytes, unread: bytes): Service {
    match ReadLine(unread)
    case NoLine => Service([], Shut)
    case GotLine(text, rest) =>
      match c.decReq(text)
      case None => Service([], Shut)
      case Some(req) =>
        if req.hmac != ClientProof(key, nonce, cb) then Service([Refusal(Unauthorized)], Shut)
        else Serve(c, w, ServerProof(key, nonce, cb), req, rest)
  }

  function Lines(c: Codec, es: seq<Envelope>): bytes {
    if es == [] then [] else Line(c.encEnv(es[0])) + Lines(c, es[1..])
  }

  lemma {:induction false} LinesSnoc(c: Codec, es: seq<Envelope>, e: Envelope)
    ensures Lines(c, es + [e]) == Lines(c, es) + Line(c.encEnv(e))
    decreases |es|
  {
    if es == [] {
      assert es + [e] == [e];
      assert Lines(c, [e][1..]) == [];
    } else {
      assert (es + [e])[1..] == es[1..] + [e];
      LinesSnoc(c, es[1..], e);
    }
  }

  /** handleConn. Replies are written whether or not the client still listens. */
  method HandleConn(c: Codec, w: World, key: Key, cb: bytes, nonce: bytes, conn: Conn, src: Source) returns (end: End)
    requires conn as object != src as object
    modifies conn, src
    ensures var hello := Line(Greeting(nonce));
            if |hello| > old(conn.budget) then Appends(conn, hello) && end == Shut && unchanged(src)
            else
              var s := Attend(c, w, key, nonce, cb, old(src.unread));
              end == s.end && Appends(conn, hello + Lines(c, s.replies))
    ensures end.Running? ==> src.unread == end.rest
  {
    var hello := Line(Greeting(nonce));
    var greeted := conn.Write(hello);
    if !greeted {
      return Shut;
    }
    ghost var lines := Lines(c, Attend(c, w, key, nonce, cb, src.unread).replies);
    CutTwice(hello, lines, old(conn.budget));
    end := AttendTo(c, w, key, cb, nonce, conn, src);
  }

  /** handleConn after its greeting. */
  method AttendTo(c: Codec, w: World, key: Key, cb: bytes, nonce: bytes, conn: Conn, src: Source) returns (end: End)
    requires conn as object != src as object
    modifies conn, src
    ensures var s := Attend(c, w, key, nonce, cb, old(src.unread));
            end == s.end && Carries(conn, old(conn.accepted), old(conn.budget), Lines(c, s.replies))
    ensures end.Running? ==> src.unread == end.rest
  {
    var text := ReadString(src);
    if text.None? {
      return Shut;
    }
    var first := c.decReq(text.value);
    if first.None? {
      return Shut;
    }
    var want := Prove(key, CLIENT, nonce, cb);
    if want != first.value.hmac {
      ghost var none: seq<Envelope> := [];
      WriteEnvelope(c, conn, Refusal(Unauthorized), none, conn.accepted, conn.budget);
      assert none + [Refusal(Unauthorized)] == [Refusal(Unauthorized)];
      return Shut;
    }
    var proof := Prove(key, SERVER, nonce, cb);
    end := ServeLoop(c, w, proof, first.value, conn, src);
  }

  /** The loop, once the client is authenticated. */
  method ServeLoop(c: Codec, w: World, proof: Proof, first: Request, conn: Conn, src: Source) returns (end: End)
    requires conn as object != src as object
    modifies conn, src
    ensures var s := Serve(c, w, proof, first, old(src.unread));
            end == s.end && Carries(conn, old(conn.accepted), old(conn.budget), Lines(c, s.replies))
    ensures end.Running? ==> src.unread == end.rest
  {
    var req := first;
    ghost var start, budget, done := conn.accepted, conn.budget, [];
    ghost var all := Serve(c, w, proof, req, src.unread);
    while req.op.Info?
      invariant Carries(conn, start, budget, Lines(c, done))
      invariant all == After(done, Serve(c, w, proof, req, src.unread))
      decreases |src.unread|
    {
      ServeTurn(c, w, proof, req, src.unread, done);
      WriteEnvelope(c, conn, ReplyTo(w, proof, req), done, start, budget);
      done := done + [ReplyTo(w, proof, req)];
      var next := ReadFollowup(c, src);
      if next.None? {
        return Shut;
      }
      req := next.value;
    }
    ServeTurn(c, w, proof, req, src.unread, done);
    var reply := ReplyTo(w, proof, req);
    WriteEnvelope(c, conn, reply, done, start, budget);
    return Final(req, reply, src.unread);
  }

  lemma ServeTurn(c: Codec, w: World, proof: Proof, req: Request, unread: bytes, done: seq<Envelope>)
    ensures var reply := ReplyTo(w, proof, req);
            After(done, Serve(c, w, proof, req, unread)) ==
              if !req.op.Info? then Service(done + [reply], Final(req, reply, unread))
              else
                match FollowUp(c, unread)
                case NoMore => Service(done + [reply], Shut)
                case Next(next, rest) => After(done + [reply], Serve(c, w, proof, next, rest))
  {
    if req.op.Info? && FollowUp(c, unread).Next? {
      var n := FollowUp(c, unread);
      var reply := ReplyTo(w, proof, req);
      assert done + ([reply] + Serve(c, w, proof, n.req, n.rest).replies)
          == done + [reply] + Serve(c, w, proof, n.req, n.rest).replies;
    }
  }

  /** A service whose first replies have been sent. */
  function After(done: seq<Envelope>, s: Service): Service {
    Service(done + s.replies, s.end)
  }

  method ReadFollowup(c: Codec, src: Source) returns (next: Option<Request>)
    modifies src
    ensures match FollowUp(c, old(src.unread))
            case NoMore => next == None
            case Next(req, rest) => next == Some(req) && src.unread == rest
  {
    var text := ReadString(src);
    if text.None? {
      return None;
    }
    return c.decReq(text.value);
  }

  /** conn once accepted start with budget left, and was then given b. */
  ghost predicate Carries(conn: Conn, start: bytes, budget: nat, b: bytes)
    reads conn
  {
    conn.accepted == start + b[..Min(budget, |b|)] && conn.budget == budget - Min(budget, |b|)
  }

  method WriteEnvelope(c: Codec, conn: Conn, e: Envelope,
                       ghost done: seq<Envelope>, ghost start: bytes, ghost budget: nat)
    requires Carries(conn, start, budget, Lines(c, done))
    modifies conn
    ensures Carries(conn, start, budget, Lines(c, done + [e]))
  {
    var sent := conn.Write(Line(c.encEnv(e)));
    LinesSnoc(c, done, e);
    CutTwice(Lines(c, done), Line(c.encEnv(e)), budget);
  }

  /** Two writes, each cut where the connection died, are one cut write. */
  lemma CutTwice(a: bytes, b: bytes, budget: nat)
    ensures a[..Min(budget, |a|)] + b[..Min(budget - Min(budget, |a|), |b|)] == (a + b)[..Min(budget, |a + b|)]
  {
  }
}
