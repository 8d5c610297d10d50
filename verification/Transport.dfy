/** The client's end of a connection before streaming: Open and Session.Do. */
module Transport {
  import opened Prelude
  import opened Frames
  import opened FrameIO
  import opened Proofs
  import opened Control

  datatype Answer = Accepted(env: Envelope) | Refused(code: Code) | Failed

  /** The reply a client finds in its unread bytes. */
  function AnswerIn(c: Codec, unread: bytes): Answer {
    match ReadLine(unread)
    case NoLine => Failed
    case GotLine(text, _) =>
      match c.decEnv(text)
      case None => Failed
      case Some(env) => if env.ok then Accepted(env) else Refused(env.code)
  }

  /** Open also demands the server's own proof. */
  function Verified(a: Answer, proof: Proof): Answer {
    if a.Accepted? && a.env.proof != proof then Refused(Unauthorized) else a
  }

  /** The reply an agent wrote is the one the client finds: accepted if it is ok,
      refused with its code if not. */
  lemma AnswerIs(c: Codec, env: Envelope, rest: bytes)
    requires Faithful(c)
    ensures AnswerIn(c, Line(c.encEnv(env)) + rest) == if env.ok then Accepted(env) else Refused(env.code)
    ensures AfterLine(Line(c.encEnv(env)) + rest) == rest
  {
    ReadOwnLine(c.encEnv(env), rest);
  }

  /** Open on an agent's own greeting and reply: a session exactly when the reply is
      ok and carries the server's proof for this key, nonce and connection. */
  lemma OpensIff(c: Codec, key: Key, cb: bytes, nonce: bytes, env: Envelope, rest: bytes)
    requires Faithful(c) && nonce != [] && Solid(nonce) && OneLine(nonce)
    ensures var a := Opens(c, key, cb, Line(Greeting(nonce)) + (Line(c.encEnv(env)) + rest));
            && (a == Accepted(env) <==> env.ok && env.proof == ServerProof(key, nonce, cb))
            && (!env.ok ==> a == Refused(env.code))
            && (env.ok && env.proof != ServerProof(key, nonce, cb) ==> a == Refused(Unauthorized))
  {
    assert OneLine(Greeting(nonce));
    ReadOwnLine(Greeting(nonce), Line(c.encEnv(env)) + rest);
    GreetingParses(nonce, []);
    AnswerIs(c, env, rest);
  }

  /** No line, or a line that is no reply, opens nothing. */
  lemma NoReplyFails(c: Codec, unread: bytes)
    requires match ReadLine(unread) case NoLine => true case GotLine(text, _) => c.decEnv(text).None?
    ensures AnswerIn(c, unread).Failed?
  {
  }

  function AfterLine(s: bytes): bytes {
    match ReadLine(s)
    case GotLine(_, rest) => rest
    case NoLine => []
  }

  class Session {
    const conn: Conn
    const r: Source
    var reply: Envelope

    constructor (conn: Conn, r: Source, reply: Envelope)
      ensures this.conn == conn && this.r == r && this.reply == reply
    {
      this.conn, this.r, this.reply := conn, r, reply;
    }

    /** A follow-up request. Exactly one line is written and one line read; the
        reply replaces the last one only if it is ok. */
    method Do(c: Codec, req: Request) returns (a: Answer)
      requires conn as object != r as object
      modifies this, conn, r
      ensures var line := Line(c.encReq(req.(v := VERSION)));
              Appends(conn, line) && conn.closed == old(conn.closed)
              && (|line| > old(conn.budget) ==> a == Failed && unchanged(r) && reply == old(reply))
              && (|line| <= old(conn.budget) ==>
                    a == AnswerIn(c, old(r.unread)) && r.unread == AfterLine(old(r.unread)))
      ensures reply == if a.Accepted? then a.env else old(reply)
    {
      var sent := conn.Write(Line(c.encReq(req.(v := VERSION))));
      if !sent {
        return Failed;
      }
      var text := ReadString(r);
      if text.None? {
        return Failed;
      }
      var env := c.decEnv(text.value);
      if env.None? {
        return Failed;
      }
      if !env.value.ok {
        return Refused(env.value.code);
      }
      reply := env.value;
      return Accepted(env.value);
    }
  }

  /** The request Open writes after a greeting. */
  function Opening(key: Key, cb: bytes, nonce: bytes, req: Request): Request {
    req.(v := VERSION, hmac := ClientProof(key, nonce, cb))
  }

  /** What Open makes of everything the server will send. */
  function Opens(c: Codec, key: Key, cb: bytes, unread: bytes): Answer {
    match ReadLine(unread)
    case NoLine => Failed
    case GotLine(line, rest) =>
      match ParseGreeting(line)
      case None => Failed
      case Some(nonce) => Verified(AnswerIn(c, rest), ServerProof(key, nonce, cb))
  }

  /** Open on a connection past its TLS handshake: a session exactly when the
      greeting parses, the request goes out, and the reply is ok and proven; the
      session's reader stands just past the reply line. On every failure the
      connection is closed. */
  method Open(c: Codec, key: Key, cb: bytes, conn: Conn, r: Source, req: Request)
    returns (a: Answer, sess: Option<Session>)
    requires conn as object != r as object
    modifies conn, r
    ensures a.Accepted? <==> sess.Some?
    ensures conn.closed == (old(conn.closed) || sess.None?)
    ensures match ReadLine(old(r.unread))
            case NoLine => a == Failed && Appends(conn, [])
            case GotLine(line, rest) =>
              match ParseGreeting(line)
              case None => a == Failed && Appends(conn, [])
              case Some(nonce) =>
                var out := Line(c.encReq(Opening(key, cb, nonce, req)));
                && Appends(conn, out)
                && a == (if |out| <= old(conn.budget) then Opens(c, key, cb, old(r.unread)) else Failed)
                && (sess.Some? ==> r.unread == AfterLine(rest))
    ensures sess.Some? ==>
              fresh(sess.value) && sess.value.conn == conn && sess.value.r == r && sess.value.reply == a.env
  {
    var line := ReadString(r);
    if line.None? {
      conn.Close();
      return Failed, None;
    }
    var nonce := ParseGreeting(line.value);
    if nonce.None? {
      conn.Close();
      return Failed, None;
    }
    var proof := Prove(key, CLIENT, nonce.value, cb);
    var sent := conn.Write(Line(c.encReq(req.(v := VERSION, hmac := proof))));
    if !sent {
      conn.Close();
      return Failed, None;
    }
    var text := ReadString(r);
    if text.None? {
      conn.Close();
      return Failed, None;
    }
    var env := c.decEnv(text.value);
    if env.None? {
      conn.Close();
      return Failed, None;
    }
    if !env.value.ok {
      conn.Close();
      return Refused(env.value.code), None;
    }
    proof := Prove(key, SERVER, nonce.value, cb);
    if proof != env.value.proof {
      conn.Close();
      return Refused(Unauthorized), None;
    }
    var s := new Session(conn, r, env.value);
    return Accepted(env.value), Some(s);
  }
}
