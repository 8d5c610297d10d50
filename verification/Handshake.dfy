/** The authenticated handshake: any number of agents and clients at once, keys
    rotating under them, and an adversary that reads every proof and answers
    every read with whatever it can make. */
module Handshake {
  import opened Frames
  import opened Proofs

  /** One accepted connection. cb is the channel binding of its TLS session. */
  datatype Agent = Agent(host: nat, cb: bytes, pc: AgentPc)

  datatype AgentPc =
    | Greeting
    | Sent(nonce: bytes)
    | Asked(nonce: bytes, hmac: Proof)
    | Loaded(nonce: bytes, hmac: Proof, key: Key)
    | Accepted(nonce: bytes, key: Key)
    | Refused

  /** One call of Open past its TLS handshake. */
  datatype Client = Client(key: Key, cb: bytes, pc: ClientPc)

  datatype ClientPc = Dialled | Proved(nonce: bytes) | Opened(nonce: bytes) | Failed(nonce: bytes)

  /** files   the key file of each host
      sent    every proof an agent or client has put on a connection
      leaked  the keys the adversary holds */
  datatype State = State(files: map<nat, Key>, agents: map<nat, Agent>, clients: map<nat, Client>,
                         sent: set<Proof>, leaked: set<Key>)

  datatype Event =
    | Install(host: nat, key: Key)              // Rotate or Save: the rename
    | Leak(key: Key)
    | Accept(a: nat, host: nat, cb: bytes)
    | Dial(c: nat, host: nat, cb: bytes)
    | SendNonce(a: nat, nonce: bytes)
    | ReadGreeting(c: nat, nonce: bytes)
    | ReadRequest(a: nat, hmac: Proof)
    | LoadKey(a: nat)
    | Judge(a: nat)
    | ReadReply(c: nat, proof: Proof)           // an ok reply; others only fail

  /** What the adversary can put in a proof field: what it saw, what it can
      compute with a key it holds, and anything that is no HMAC at all. */
  predicate Derivable(s: State, p: Proof) {
    p.Junk? || p in s.sent || p.key in s.leaked
  }

  predicate Enabled(s: State, e: Event) {
    match e
    case Install(_, _) => true
    case Leak(_) => true
    case Accept(a, host, cb) =>
      && a !in s.agents && host in s.files && |cb| == BINDING_LEN
      && (forall b :: b in s.agents ==> s.agents[b].cb != cb)
    case Dial(c, host, cb) =>
      && c !in s.clients && host in s.files && |cb| == BINDING_LEN
      && (forall d :: d in s.clients ==> s.clients[d].cb != cb)
    case SendNonce(a, nonce) => a in s.agents && s.agents[a].pc.Greeting?
    case ReadGreeting(c, nonce) => c in s.clients && s.clients[c].pc.Dialled?
    case ReadRequest(a, hmac) => a in s.agents && s.agents[a].pc.Sent? && Derivable(s, hmac)
    case LoadKey(a) => a in s.agents && s.agents[a].pc.Asked? && s.agents[a].host in s.files
    case Judge(a) => a in s.agents && s.agents[a].pc.Loaded?
    case ReadReply(c, proof) => c in s.clients && s.clients[c].pc.Proved? && Derivable(s, proof)
  }

  function SetAgent(s: State, a: nat, pc: AgentPc): State
    requires a in s.agents
  {
    s.(agents := s.agents[a := s.agents[a].(pc := pc)])
  }

  function SetClient(s: State, c: nat, pc: ClientPc): State
    requires c in s.clients
  {
    s.(clients := s.clients[c := s.clients[c].(pc := pc)])
  }

  function Step(s: State, e: Event): State
    requires Enabled(s, e)
  {
    match e
    case Install(host, key) => s.(files := s.files[host := key])
    case Leak(key) => s.(leaked := s.leaked + {key})
    case Accept(a, host, cb) => s.(agents := s.agents[a := Agent(host, cb, Greeting)])
    case Dial(c, host, cb) => s.(clients := s.clients[c := Client(s.files[host], cb, Dialled)])
    case SendNonce(a, nonce) => SetAgent(s, a, Sent(nonce))
    case ReadGreeting(c, nonce) =>
      var me := s.clients[c];
      SetClient(s, c, Proved(nonce)).(sent := s.sent + {ClientProof(me.key, nonce, me.cb)})
    case ReadRequest(a, hmac) => SetAgent(s, a, Asked(s.agents[a].pc.nonce, hmac))
    case LoadKey(a) =>
      var me := s.agents[a];
      SetAgent(s, a, Loaded(me.pc.nonce, me.pc.hmac, s.files[me.host]))
    case Judge(a) =>
      var me := s.agents[a];
      var key, nonce := me.pc.key, me.pc.nonce;
      if ClientProof(key, nonce, me.cb) != me.pc.hmac then SetAgent(s, a, Refused)
      else SetAgent(s, a, Accepted(nonce, key)).(sent := s.sent + {ServerProof(key, nonce, me.cb)})
    case ReadReply(c, proof) =>
      var me := s.clients[c];
      var n := me.pc.nonce;
      SetClient(s, c, if ServerProof(me.key, n, me.cb) == proof then Opened(n) else Failed(n))
  }

  ghost predicate Reaches(s: State, es: seq<Event>, t: State)
    decreases |es|
  {
    if es == [] then s == t
    else Enabled(s, es[0]) && Reaches(Step(s, es[0]), es[1..], t)
  }

  predicate IsStart(s: State) {
    s.agents == map[] && s.clients == map[] && s.sent == {}
  }

  // ---- The invariant ----

  predicate ClientSent(c: Client, p: Proof) {
    !c.pc.Dialled? && p == ClientProof(c.key, c.pc.nonce, c.cb)
  }

  predicate AgentSent(a: Agent, p: Proof) {
    a.pc.Accepted? && p == ServerProof(a.pc.key, a.pc.nonce, a.cb)
  }

  /** An honest party put this proof on a connection. */
  ghost predicate HasSender(s: State, p: Proof) {
    || (exists c :: c in s.clients && ClientSent(s.clients[c], p))
    || (exists a :: a in s.agents && AgentSent(s.agents[a], p))
  }

  ghost predicate AgentOk(s: State, me: Agent) {
    && |me.cb| == BINDING_LEN
    && (me.pc.Asked? || me.pc.Loaded? ==> Derivable(s, me.pc.hmac))
    && (me.pc.Accepted? ==> Derivable(s, ClientProof(me.pc.key, me.pc.nonce, me.cb)))
  }

  ghost predicate ClientOk(s: State, me: Client) {
    && |me.cb| == BINDING_LEN
    && (me.pc.Opened? ==> Derivable(s, ServerProof(me.key, me.pc.nonce, me.cb)))
  }

  ghost predicate SentOk(s: State) {
    forall p :: p in s.sent ==> HasSender(s, p)
  }

  ghost predicate PartiesOk(s: State) {
    && (forall a :: a in s.agents ==> AgentOk(s, s.agents[a]))
    && (forall c :: c in s.clients ==> ClientOk(s, s.clients[c]))
  }

  /** A binding belongs to one TLS connection. */
  ghost predicate BindingsUnique(s: State) {
    && (forall a, b :: a in s.agents && b in s.agents && s.agents[a].cb == s.agents[b].cb ==> a == b)
    && (forall c, d :: c in s.clients && d in s.clients && s.clients[c].cb == s.clients[d].cb ==> c == d)
  }

  ghost predicate Inv(s: State) {
    SentOk(s) && PartiesOk(s) && BindingsUnique(s)
  }

  lemma SenderStays(s: State, e: Event, p: Proof)
    requires Enabled(s, e) && HasSender(s, p)
    ensures HasSender(Step(s, e), p)
  {
    var t := Step(s, e);
    if c :| c in s.clients && ClientSent(s.clients[c], p) {
      assert c in t.clients && ClientSent(t.clients[c], p);
    } else {
      var a :| a in s.agents && AgentSent(s.agents[a], p);
      assert a in t.agents && AgentSent(t.agents[a], p);
    }
  }

  lemma SentStep(s: State, e: Event)
    requires SentOk(s) && Enabled(s, e)
    ensures SentOk(Step(s, e))
  {
    var t := Step(s, e);
    forall p | p in t.sent ensures HasSender(t, p) {
      if p in s.sent {
        SenderStays(s, e, p);
      } else if e.ReadGreeting? {
        assert ClientSent(t.clients[e.c], p);
      } else {
        assert AgentSent(t.agents[e.a], p);
      }
    }
  }

  lemma AgentOkStays(s: State, t: State, me: Agent)
    requires AgentOk(s, me) && s.sent <= t.sent && s.leaked <= t.leaked
    ensures AgentOk(t, me)
  {
  }

  lemma ClientOkStays(s: State, t: State, me: Client)
    requires ClientOk(s, me) && s.sent <= t.sent && s.leaked <= t.leaked
    ensures ClientOk(t, me)
  {
  }

  lemma PartiesStep(s: State, e: Event)
    requires PartiesOk(s) && Enabled(s, e)
    ensures PartiesOk(Step(s, e))
  {
    var t := Step(s, e);
    forall a | a in t.agents ensures AgentOk(t, t.agents[a]) {
      if a in s.agents && t.agents[a] == s.agents[a] {
        AgentOkStays(s, t, s.agents[a]);
      } else if a in s.agents {
        AgentOkStays(s, t, s.agents[a]);
      }
    }
    forall c | c in t.clients ensures ClientOk(t, t.clients[c]) {
      if c in s.clients {
        ClientOkStays(s, t, s.clients[c]);
      }
    }
  }

  lemma BindingsStep(s: State, e: Event)
    requires BindingsUnique(s) && Enabled(s, e)
    ensures BindingsUnique(Step(s, e))
  {
  }

  lemma StepInv(s: State, e: Event)
    requires Inv(s) && Enabled(s, e)
    ensures Inv(Step(s, e))
  {
    SentStep(s, e);
    PartiesStep(s, e);
    BindingsStep(s, e);
  }

  lemma {:induction false} RunInv(s: State, es: seq<Event>, t: State)
    requires Inv(s) && Reaches(s, es, t)
    ensures Inv(t)
    decreases |es|
  {
    if es != [] {
      StepInv(s, es[0]);
      RunInv(Step(s, es[0]), es[1..], t);
    }
  }

  // ---- Main results ----

  /** Same key, same nonce, same TLS connection. */
  predicate Agree(a: Agent, c: Client) {
    && a.pc.Accepted? && !c.pc.Dialled?
    && a.pc.key == c.key && a.pc.nonce == c.pc.nonce && a.cb == c.cb
  }

  /** c is the one client on the TLS connection with this binding. */
  predicate OnlyClient(s: State, c: nat, cb: bytes) {
    c in s.clients && forall d :: d in s.clients ==> (s.clients[d].cb == cb <==> d == c)
  }

  predicate OnlyAgent(s: State, a: nat, cb: bytes) {
    a in s.agents && forall b :: b in s.agents ==> (s.agents[b].cb == cb <==> b == a)
  }

  /** An agent that accepts under a key the adversary lacks is talking, on this
      very connection, to exactly one client holding that key. */
  lemma AgentAuthenticates(start: State, es: seq<Event>, s: State, a: nat)
    requires IsStart(start) && Reaches(start, es, s)
    requires a in s.agents && s.agents[a].pc.Accepted? && s.agents[a].pc.key !in s.leaked
    ensures exists c :: OnlyClient(s, c, s.agents[a].cb) && Agree(s.agents[a], s.clients[c])
  {
    RunInv(start, es, s);
    var me := s.agents[a];
    var p := ClientProof(me.pc.key, me.pc.nonce, me.cb);
    assert HasSender(s, p);
    if b :| b in s.agents && AgentSent(s.agents[b], p) {
      var other := s.agents[b];
      MessageInjective(CLIENT, me.pc.nonce, me.cb, SERVER, other.pc.nonce, other.cb);
      assert false;
    } else {
      var c :| c in s.clients && ClientSent(s.clients[c], p);
      var other := s.clients[c];
      MessageInjective(CLIENT, me.pc.nonce, me.cb, CLIENT, other.pc.nonce, other.cb);
      assert OnlyClient(s, c, me.cb) && Agree(me, other);
    }
  }

  /** A session that Open returns under such a key has exactly one agent at its
      other end, which accepted it with the same key. */
  lemma ClientAuthenticates(start: State, es: seq<Event>, s: State, c: nat)
    requires IsStart(start) && Reaches(start, es, s)
    requires c in s.clients && s.clients[c].pc.Opened? && s.clients[c].key !in s.leaked
    ensures exists a :: OnlyAgent(s, a, s.clients[c].cb) && Agree(s.agents[a], s.clients[c])
  {
    RunInv(start, es, s);
    var me := s.clients[c];
    var p := ServerProof(me.key, me.pc.nonce, me.cb);
    assert HasSender(s, p);
    if d :| d in s.clients && ClientSent(s.clients[d], p) {
      var other := s.clients[d];
      MessageInjective(SERVER, me.pc.nonce, me.cb, CLIENT, other.pc.nonce, other.cb);
      assert false;
    } else {
      var a :| a in s.agents && AgentSent(s.agents[a], p);
      var other := s.agents[a];
      MessageInjective(SERVER, me.pc.nonce, me.cb, SERVER, other.pc.nonce, other.cb);
      assert OnlyAgent(s, a, me.cb) && Agree(other, me);
    }
  }

  /** However keys rotate meanwhile, the two ends of one TLS connection that
      both completed agree on key and nonce, if either's key is unknown to the
      adversary. */
  lemma BothEndsAgree(start: State, es: seq<Event>, s: State, a: nat, c: nat)
    requires IsStart(start) && Reaches(start, es, s)
    requires a in s.agents && s.agents[a].pc.Accepted?
    requires c in s.clients && s.clients[c].pc.Opened? && s.clients[c].cb == s.agents[a].cb
    requires s.agents[a].pc.key !in s.leaked || s.clients[c].key !in s.leaked
    ensures Agree(s.agents[a], s.clients[c])
  {
    if s.agents[a].pc.key !in s.leaked {
      AgentAuthenticates(start, es, s, a);
    } else {
      ClientAuthenticates(start, es, s, c);
    }
  }

  /** Left alone, an exchange on one connection completes exactly when the two
      hosts hold the same key at the moments they load it; with different keys
      the agent refuses. */
  lemma UndisturbedExchange(s: State, a: nat, c: nat, nonce: bytes) returns (t: State)
    requires a in s.agents && s.agents[a].pc.Greeting? && s.agents[a].host in s.files
    requires c in s.clients && s.clients[c].pc.Dialled? && s.clients[c].cb == s.agents[a].cb
    ensures Reaches(s, [SendNonce(a, nonce), ReadGreeting(c, nonce),
                        ReadRequest(a, ClientProof(s.clients[c].key, nonce, s.clients[c].cb)), LoadKey(a), Judge(a)], t)
    ensures a in t.agents && c in t.clients
    ensures s.clients[c].key != s.files[s.agents[a].host] ==> t.agents[a].pc == Refused
    ensures s.clients[c].key == s.files[s.agents[a].host] ==>
              var reply := ReadReply(c, ServerProof(s.clients[c].key, nonce, s.clients[c].cb));
              Enabled(t, reply) && Step(t, reply).clients[c].pc == Opened(nonce)
              && Agree(t.agents[a], Step(t, reply).clients[c])
  {
    var me := s.clients[c];
    var proof := ClientProof(me.key, nonce, me.cb);
    var s1 := Step(s, SendNonce(a, nonce));
    var s2 := Step(s1, ReadGreeting(c, nonce));
    var s3 := Step(s2, ReadRequest(a, proof));
    var s4 := Step(s3, LoadKey(a));
    t := Step(s4, Judge(a));
    ReachesCons(s4, Judge(a), [], t);
    ReachesCons(s3, LoadKey(a), [Judge(a)], t);
    ReachesCons(s2, ReadRequest(a, proof), [LoadKey(a), Judge(a)], t);
    ReachesCons(s1, ReadGreeting(c, nonce), [ReadRequest(a, proof), LoadKey(a), Judge(a)], t);
    ReachesCons(s, SendNonce(a, nonce), [ReadGreeting(c, nonce), ReadRequest(a, proof), LoadKey(a), Judge(a)], t);
  }

  lemma ReachesCons(s: State, e: Event, es: seq<Event>, t: State)
    requires Enabled(s, e) && Reaches(Step(s, e), es, t)
    ensures Reaches(s, [e] + es, t)
  {
    assert ([e] + es)[1..] == es;
  }
}
