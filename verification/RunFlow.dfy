/** knit run: probe, filter, choose, reuse or dial, stream; and who closes which
    session on the way. */
module RunFlow {
  import opened Prelude
  import opened Frames
  import opened AgentRun
  import opened ClientLoop
  import opened Peers
  import opened Discovery
  import opened Scheduler

  /** An open, authenticated session; cand is the candidate built from its reply. */
  class OwnedSession {
    const cand: Candidate
    var closes: nat

    constructor (cand: Candidate)
      ensures this.cand == cand && closes == 0
    {
      this.cand, closes := cand, 0;
    }

    method Close()
      modifies this
      ensures closes == old(closes) + 1
    {
      closes := closes + 1;
    }
  }

  /** An info reply, and the speed of the link it came over. */
  datatype Report = Report(name: string, info: Info, mbps: int)

  /** How a stream ends: the command's own end in an exit frame, one of the agent's
      reports that a --dir run never got that far, or no exit frame at all. */
  datatype StreamEnd = CommandEnded(how: WaitResult) | TreeFailed | SpawnFailed | LinkLost

  /** Why no session could be opened for a run. */
  datatype OpenError = KeyRefused | NotSpawned | Unreachable

  /** The answers of the world outside: what a probe of a peer finds, whether the
      run request is accepted on the reused connection, why a fresh one cannot be
      opened, how a stream ends, and how the command ends when it runs here. */
  datatype World = World(
    probe: Peer -> Option<Report>, reuse: Candidate -> bool, dial: Candidate -> Option<OpenError>,
    stream: Candidate -> StreamEnd, local: WaitResult)

  const EXIT_USAGE: int := 2
  const EXIT_UNREACHABLE: int := 126
  const EXIT_UNAUTHORIZED: int := 127

  /** reportOpenError */
  function OpenCode(e: OpenError): int {
    match e
    case KeyRefused => EXIT_UNAUTHORIZED
    case NotSpawned => 127
    case Unreachable => EXIT_UNREACHABLE
  }

  function StreamCode(e: StreamEnd): int {
    match e
    case CommandEnded(how) => ExitStatus(how)
    case TreeFailed => 1
    case SpawnFailed => 127
    case LinkLost => EXIT_DISCONNECTED
  }

  datatype Placement = Placement(on: string, memGB: real, arch: string)

  /** What the peer list is gathered from: this machine's name, mDNS, and the
      targets the user named. */
  datatype Sources = Sources(
    self: string, entries: seq<Option<Entry>>, mbps: string -> int, env: string, flags: seq<string>)

  function Gathered(src: Sources): seq<Peer> {
    FirstOfEach(Others(Browsed(src.entries, src.mbps), src.self)
                + (Parsed(SplitComma(src.env, "")) + Parsed(src.flags)))
  }

  /** The discovered peers that count, and after them the named ones. */
  function Discovered(src: Sources): seq<Peer> {
    Others(Browsed(src.entries, src.mbps), src.self)
  }

  /** Of a target both discovered and named the discovered peer is kept; and a named
      target is never dropped for being this machine's own. */
  lemma DiscoveredComeFirst(src: Sources, p: Peer)
    ensures p in Gathered(src) ==>
              || (p in Browsed(src.entries, src.mbps) && p.name != src.self)
              || p in Parsed(SplitComma(src.env, "")) || p in Parsed(src.flags)
    ensures p in Gathered(src) && Listed(Discovered(src), p) ==> p in Discovered(src)
    ensures p in Parsed(SplitComma(src.env, "")) || p in Parsed(src.flags) ==> Listed(Gathered(src), p)
  {
    var near, named := Discovered(src), Parsed(SplitComma(src.env, "")) + Parsed(src.flags);
    FirstOfEachDistinct(near + named);
    OthersKept(Browsed(src.entries, src.mbps), src.self);
    if p in named {
      FirstOfEachCovers(near + named, p);
    }
    if p in Gathered(src) && Listed(near, p) {
      FrontWins(near, named, p);
    }
  }

  method Gather(src: Sources) returns (peers: seq<Peer>)
    ensures peers == Gathered(src)
  {
    var mdns := Browse(src.entries, src.mbps);
    var env := EnvPeers(src.env);
    var flags := ParsePeerList(src.flags);
    peers := GatherPeers(src.self, mdns, env + flags);
  }

  function CandidateOf(p: Peer, r: Report): Candidate {
    Candidate(r.name, p.addr, p.port, r.info, false, r.mbps)
  }

  function HostPortOrEmpty(c: Candidate): string {
    if c.local || c.addr == "" then "" else JoinHostPort(c.addr, c.port)
  }

  /** The candidates found, in the order the probes report. */
  function Found(w: World, peers: seq<Peer>): seq<Candidate> {
    if peers == [] then []
    else
      var init, p := Found(w, peers[..|peers| - 1]), peers[|peers| - 1];
      if w.probe(p).Some? then init + [CandidateOf(p, w.probe(p).value)] else init
  }

  /** Two sessions would be kept under one key. */
  predicate Collide(cands: seq<Candidate>) {
    exists i, j :: 0 <= i < j < |cands| && HostPortOrEmpty(cands[i]) == HostPortOrEmpty(cands[j])
  }

  /** made[i] was made for cands[i]. */
  ghost predicate OpenedFor(made: seq<OwnedSession>, cands: seq<Candidate>) {
    && |made| == |cands|
    && (forall i :: 0 <= i < |made| ==> made[i].cand == cands[i])
    && (forall i, j :: 0 <= i < j < |made| ==> made[i] != made[j])
  }

  /** The map of sessions: every made session's key, holding one made for it. */
  ghost predicate Keyed(sessions: map<string, OwnedSession>, made: seq<OwnedSession>) {
    && (forall i :: 0 <= i < |made| ==> HostPortOrEmpty(made[i].cand) in sessions)
    && (forall k :: k in sessions ==> sessions[k] in made && HostPortOrEmpty(sessions[k].cand) == k)
  }

  ghost predicate Untouched(made: seq<OwnedSession>)
    reads made
  {
    forall s :: s in made ==> s.closes == 0
  }

  method ProbeForRun(w: World, peers: seq<Peer>)
    returns (cands: seq<Candidate>, sessions: map<string, OwnedSession>, ghost made: seq<OwnedSession>)
    ensures cands == Found(w, peers) && OpenedFor(made, cands) && Keyed(sessions, made)
    ensures Untouched(made) && forall s :: s in made ==> fresh(s)
    ensures forall i :: 0 <= i < |made| ==> fresh(made[i])
  {
    cands, sessions, made := [], map[], [];
    for k := 0 to |peers|
      invariant cands == Found(w, peers[..k]) && OpenedFor(made, cands) && Keyed(sessions, made)
      invariant Untouched(made) && forall s :: s in made ==> fresh(s)
    {
      assert peers[..k + 1][..k] == peers[..k];
      var r := w.probe(peers[k]);
      if r.Some? {
        var cand := CandidateOf(peers[k], r.value);
        var sess := new OwnedSession(cand);
        cands, made := cands + [cand], made + [sess];
        sessions := sessions[HostPortOrEmpty(cand) := sess];
      }
    }
    assert peers[..|peers|] == peers;
    forall i | 0 <= i < |made| ensures fresh(made[i]) {
      assert made[i] in made;
    }
  }

  /** The deferred loop over what is left in the map. */
  method CloseAll(sessions: map<string, OwnedSession>)
    requires forall k, m :: k in sessions && m in sessions && sessions[k] == sessions[m] ==> k == m
    modifies sessions.Values
    ensures forall s :: s in sessions.Values ==> s.closes == old(s.closes) + 1
  {
    var rest := sessions;
    while rest != map[]
      invariant rest.Keys <= sessions.Keys && forall k :: k in rest ==> rest[k] == sessions[k]
      invariant forall k :: k in sessions ==>
                  sessions[k].closes == old(sessions[k].closes) + if k in rest then 0 else 1
      decreases rest.Keys
    {
      var k :| k in rest;
      rest[k].Close();
      rest := rest - {k};
    }
  }

  // ---- Run ----

  datatype Outcome =
    | NoCommand | NoKey | Unsatisfied | NoSuchMachine | RanLocally(best: Candidate)
    | Streamed(best: Candidate, reused: bool)
    | NotOpened(best: Candidate, error: OpenError)

  /** The machine Run settles on, given the candidates that meet the constraints. */
  ghost predicate IsChoice(p: Placement, kept: seq<Candidate>, best: Candidate) {
    if p.on == "" then kept != [] && best == PickFrom(kept)
    else
      exists i :: 0 <= i < |kept| && kept[i] == best && best.name == p.on
                  && forall j :: 0 <= j < i ==> kept[j].name != p.on
  }

  method Choose(p: Placement, kept: seq<Candidate>) returns (best: Option<Candidate>)
    requires kept != []
    ensures best.Some? ==> IsChoice(p, kept, best.value)
    ensures best.None? <==> p.on != "" && forall i :: 0 <= i < |kept| ==> kept[i].name != p.on
  {
    if p.on != "" {
      best := ByName(kept, p.on);
    } else {
      best := Pick(kept);
    }
  }

  /** The exit code of an outcome. */
  function CodeOf(w: World, o: Outcome): int {
    match o
    case NoCommand => EXIT_USAGE
    case NoKey => 1
    case Unsatisfied => EXIT_UNREACHABLE
    case NoSuchMachine => EXIT_UNREACHABLE
    case RanLocally(_) => ExitStatus(w.local)
    case Streamed(best, _) => StreamCode(w.stream(best))
    case NotOpened(_, e) => OpenCode(e)
  }

  /** The codes in figures, failure by failure. */
  lemma CodesAre(w: World, o: Outcome)
    ensures o.NoCommand? ==> CodeOf(w, o) == 2
    ensures o.NoKey? ==> CodeOf(w, o) == 1
    ensures o.Unsatisfied? || o.NoSuchMachine? ==> CodeOf(w, o) == 126
    ensures o.NotOpened? ==> CodeOf(w, o) == if o.error.Unreachable? then 126 else 127
    ensures o.RanLocally? && w.local.Exited? ==> CodeOf(w, o) == w.local.status as int
    ensures o.RanLocally? && w.local.Signaled? ==> CodeOf(w, o) == 128 + w.local.signal as int
    ensures o.RanLocally? && w.local.WaitError? ==> CodeOf(w, o) == 127
    ensures o.Streamed? ==>
              match w.stream(o.best)
              case LinkLost => CodeOf(w, o) == 124
              case TreeFailed => CodeOf(w, o) == 1
              case SpawnFailed => CodeOf(w, o) == 127
              case CommandEnded(Exited(status)) => CodeOf(w, o) == status as int
              case CommandEnded(Signaled(signal)) => CodeOf(w, o) == 128 + signal as int
              case CommandEnded(WaitError) => CodeOf(w, o) == 127
  {
  }

  /** From the choice of a remote machine on. The session kept for it leaves the
      map; streamOver closes it, or Run does when the agent turns the run down. */
  method RunOn(w: World, best: Candidate, sessions: map<string, OwnedSession>)
    returns (outcome: Outcome, used: Option<OwnedSession>, left: map<string, OwnedSession>)
    modifies set k | k in sessions && k == HostPortOrEmpty(best) :: sessions[k]
    ensures left == sessions - {HostPortOrEmpty(best)}
    ensures HostPortOrEmpty(best) in sessions ==>
              var s := sessions[HostPortOrEmpty(best)];
              s.closes == old(s.closes) + 1
    ensures match outcome
            case Streamed(c, reused) =>
              && c == best && used.Some?
              && (reused <==> HostPortOrEmpty(best) in sessions && w.reuse(best))
              && (reused ==> used.value == sessions[HostPortOrEmpty(best)])
              && (!reused ==>
                    fresh(used.value) && used.value.cand == best && used.value.closes == 1 && w.dial(best).None?)
            case NotOpened(c, e) =>
              c == best && used.None? && w.dial(best) == Some(e)
              && !(HostPortOrEmpty(best) in sessions && w.reuse(best))
            case _ => false
  {
    var key := HostPortOrEmpty(best);
    left := sessions - {key};
    if key in sessions {
      var sess := sessions[key];
      if w.reuse(best) {
        sess.Close();
        return Streamed(best, true), Some(sess), left;
      }
      sess.Close();
    }
    var refused := w.dial(best);
    if refused.Some? {
      return NotOpened(best, refused.value), None, left;
    }
    var sess := new OwnedSession(best);
    sess.Close();
    return Streamed(best, false), Some(sess), left;
  }

  /** The session a run streams over, if it streams: closed once, and either the
      one the map holds for the chosen machine or a fresh one. */
  twostate predicate UsedOk(outcome: Outcome, new used: Option<OwnedSession>, sessions: map<string, OwnedSession>)
    reads if used.Some? then {used.value} else {}
  {
    if !outcome.Streamed? then used.None?
    else if !used.Some? then false
    else if outcome.reused then
      HostPortOrEmpty(outcome.best) in sessions && used.value == sessions[HostPortOrEmpty(outcome.best)]
    else fresh(used.value) && used.value.closes == 1 && used.value.cand == outcome.best
  }

  ghost predicate AllClosedOnce(made: seq<OwnedSession>)
    reads made
  {
    forall s :: s in made ==> s.closes == 1
  }

  /** What closing everything in the map once comes to. */
  ghost predicate MapClosed(made: seq<OwnedSession>, sessions: map<string, OwnedSession>)
    reads made
  {
    forall s :: s in made ==> s.closes == if s in sessions.Values then 1 else 0
  }

  /** The map forgets a session exactly when two share a key. */
  lemma ForgottenIff(made: seq<OwnedSession>, cands: seq<Candidate>, sessions: map<string, OwnedSession>)
    requires OpenedFor(made, cands) && Keyed(sessions, made) && MapClosed(made, sessions)
    ensures AllClosedOnce(made) <==> !Collide(cands)
  {
    if Collide(cands) {
      var i, j :| 0 <= i < j < |cands| && HostPortOrEmpty(cands[i]) == HostPortOrEmpty(cands[j]);
      var kept := sessions[HostPortOrEmpty(cands[i])];
      var lost := if kept == made[i] then made[j] else made[i];
      assert lost in made && HostPortOrEmpty(lost.cand) == HostPortOrEmpty(cands[i]);
      forall k | k in sessions ensures sessions[k] != lost {
      }
      assert lost.closes == 0;
    } else {
      forall s | s in made ensures s.closes == 1 {
        var i :| 0 <= i < |made| && made[i] == s;
        var t := sessions[HostPortOrEmpty(s.cand)];
        var j :| 0 <= j < |made| && made[j] == t;
        assert HostPortOrEmpty(cands[i]) == HostPortOrEmpty(cands[j]);
        assert i == j;
      }
    }
  }

  /** Run after its probes: whatever path it takes, everything in the map is
      closed once and nothing else is touched. */
  method Place(p: Placement, local: Candidate, remote: seq<Candidate>, w: World,
               sessions: map<string, OwnedSession>, ghost made: seq<OwnedSession>)
    returns (outcome: Outcome, used: Option<OwnedSession>)
    requires local.local && OpenedFor(made, remote) && Keyed(sessions, made) && Untouched(made)
    modifies made
    ensures MapClosed(made, sessions)
    ensures Explained(p, Kept([local] + remote, p.memGB, p.arch), outcome)
    ensures UsedOk(outcome, used, sessions) && Opened(w, outcome)
  {
    assert sessions.Values <= set s | s in made;
    var kept, why := Filter([local] + remote, p.memGB, p.arch);
    if !why.Fine? {
      CloseAll(sessions);
      return Unsatisfied, None;
    }
    var best := Choose(p, kept);
    if best.None? {
      CloseAll(sessions);
      return NoSuchMachine, None;
    }
    if best.value.local {
      CloseAll(sessions);
      return RanLocally(best.value), None;
    }
    ChosenIsRemote(p, local, remote, best.value);
    RemoteHasSession(remote, made, sessions, best.value);
    outcome, used := RunAndClose(w, best.value, sessions, made);
  }

  lemma RemoteHasSession(remote: seq<Candidate>, made: seq<OwnedSession>,
                         sessions: map<string, OwnedSession>, c: Candidate)
    requires OpenedFor(made, remote) && Keyed(sessions, made) && c in remote
    ensures HostPortOrEmpty(c) in sessions
  {
    var i :| 0 <= i < |remote| && remote[i] == c;
    assert made[i].cand == c;
  }

  lemma ValuesWithout(m: map<string, OwnedSession>, key: string)
    ensures forall s :: s in m.Values <==> s in (m - {key}).Values || (key in m && s == m[key])
  {
    forall s | s in m.Values ensures s in (m - {key}).Values || (key in m && s == m[key]) {
      var k :| k in m && m[k] == s;
      if k != key {
        assert (m - {key})[k] == s;
      }
    }
  }

  /** What the world answered on the way to the outcome: the reused connection
      decides, and only when it does not take the run is a fresh one dialled. */
  predicate Opened(w: World, o: Outcome) {
    match o
    case Streamed(best, reused) => (reused <==> w.reuse(best)) && (!reused ==> w.dial(best).None?)
    case NotOpened(best, e) => !w.reuse(best) && w.dial(best) == Some(e)
    case _ => true
  }

  /** Run's tail with its deferred loop. */
  method RunAndClose(w: World, best: Candidate, sessions: map<string, OwnedSession>, ghost made: seq<OwnedSession>)
    returns (outcome: Outcome, used: Option<OwnedSession>)
    requires Keyed(sessions, made) && Untouched(made)
    modifies made
    ensures MapClosed(made, sessions) && UsedOk(outcome, used, sessions)
    ensures (outcome.Streamed? || outcome.NotOpened?) && outcome.best == best
    ensures HostPortOrEmpty(best) in sessions ==> Opened(w, outcome)
  {
    var left;
    outcome, used, left := RunOn(w, best, sessions);
    ghost var key := HostPortOrEmpty(best);
    ValuesWithout(sessions, key);
    assert key in sessions ==> sessions[key] !in left.Values;
    CloseAll(left);
  }

  /** Which outcome Run may report for the candidates that meet the constraints. */
  ghost predicate Explained(p: Placement, kept: seq<Candidate>, outcome: Outcome) {
    match outcome
    case NoCommand => false
    case NoKey => false
    case Unsatisfied => kept == []
    case NoSuchMachine => kept != [] && p.on != "" && forall i :: 0 <= i < |kept| ==> kept[i].name != p.on
    case RanLocally(best) => best.local && IsChoice(p, kept, best)
    case Streamed(best, _) => !best.local && IsChoice(p, kept, best)
    case NotOpened(best, _) => !best.local && IsChoice(p, kept, best)
  }

  /** The order in which the n probes report. */
  ghost predicate IsOrder(order: seq<nat>, n: nat) {
    && |order| == n
    && (forall i :: 0 <= i < |order| ==> order[i] < n)
    && (forall i, j :: 0 <= i < j < |order| ==> order[i] != order[j])
  }

  function Arrivals(src: Sources, order: seq<nat>): seq<Peer>
    requires forall i :: 0 <= i < |order| ==> order[i] < |Gathered(src)|
  {
    seq(|order|, i requires 0 <= i < |order| => Gathered(src)[order[i]])
  }

  /** Everything Run starts from but the world. */
  datatype Call = Call(cmd: seq<string>, p: Placement, hasKey: bool, local: Candidate, src: Sources, order: seq<nat>)

  ghost predicate IsCall(c: Call) {
    c.local.local && IsOrder(c.order, |Gathered(c.src)|)
  }

  /** The candidates that meet the constraints, this machine first. */
  function Eligible(c: Call, w: World): seq<Candidate>
    requires forall i :: 0 <= i < |c.order| ==> c.order[i] < |Gathered(c.src)|
  {
    Kept([c.local] + Found(w, Arrivals(c.src, c.order)), c.p.memGB, c.p.arch)
  }

  /** Run may report o in world w. */
  ghost predicate MayReport(c: Call, w: World, o: Outcome)
    requires IsCall(c)
  {
    if c.cmd == [] then o == NoCommand
    else if !c.hasKey then o == NoKey
    else Explained(c.p, Eligible(c, w), o) && Opened(w, o)
  }

  /** Run. On every path, whatever the peers and the order in which they answer,
      every session a probe opened is closed exactly once, and so is a dialled
      one; a reused session is the one opened for the candidate chosen, and it is
      reused exactly when the agent takes the run on it. */
  method Run(cmd: seq<string>, p: Placement, hasKey: bool, local: Candidate, src: Sources, order: seq<nat>, w: World)
    returns (code: int, outcome: Outcome, used: Option<OwnedSession>, ghost made: seq<OwnedSession>)
    requires IsCall(Call(cmd, p, hasKey, local, src, order))
    ensures code == CodeOf(w, outcome) && MayReport(Call(cmd, p, hasKey, local, src, order), w, outcome)
    ensures cmd == [] || !hasKey ==> made == []
    ensures cmd != [] && hasKey ==> OpenedFor(made, Found(w, Arrivals(src, order)))
    ensures AllClosedOnce(made) && forall s :: s in made ==> fresh(s)
    ensures used.Some? <==> outcome.Streamed?
    ensures used.Some? ==>
              && used.value.cand == outcome.best && used.value.closes == 1
              && (used.value in made <==> outcome.reused)
  {
    made := [];
    if cmd == [] {
      return EXIT_USAGE, NoCommand, None, made;
    }
    if !hasKey {
      return 1, NoKey, None, made;
    }
    var gathered := Gather(src);
    GatheredNeverCollide(w, src, order);
    outcome, used, made := RunAmong(p, local, seq(|order|, i requires 0 <= i < |order| => gathered[order[i]]), w);
    code := CodeOf(w, outcome);
  }

  /** Run over the peers in the order they report. */
  method RunAmong(p: Placement, local: Candidate, arrivals: seq<Peer>, w: World)
    returns (outcome: Outcome, used: Option<OwnedSession>, ghost made: seq<OwnedSession>)
    requires local.local && !Collide(Found(w, arrivals))
    ensures OpenedFor(made, Found(w, arrivals)) && AllClosedOnce(made) && forall s :: s in made ==> fresh(s)
    ensures Explained(p, Kept([local] + Found(w, arrivals), p.memGB, p.arch), outcome) && Opened(w, outcome)
    ensures used.Some? <==> outcome.Streamed?
    ensures used.Some? ==>
              && used.value.cand == outcome.best && used.value.closes == 1
              && (used.value in made <==> outcome.reused)
  {
    var remote, sessions;
    remote, sessions, made := ProbeForRun(w, arrivals);
    outcome, used := Place(p, local, remote, w, sessions, made);
    ForgottenIff(made, remote, sessions);
    if outcome.Streamed? && outcome.reused {
      ChosenIsRemote(p, local, remote, outcome.best);
      SameKeySameCandidate(remote, used.value.cand, outcome.best);
    }
  }

  /** A remote machine that Run settles on is one that a probe found. */
  lemma ChosenIsRemote(p: Placement, local: Candidate, remote: seq<Candidate>, best: Candidate)
    requires local.local && !best.local && IsChoice(p, Kept([local] + remote, p.memGB, p.arch), best)
    ensures best in remote
  {
    var kept := Kept([local] + remote, p.memGB, p.arch);
    var at := KeptIsSubsequence([local] + remote, p.memGB, p.arch);
    if p.on == "" {
      PickIsMember(kept);
    }
    var k :| 0 <= k < |kept| && kept[k] == best;
    assert ([local] + remote)[at[k]] == best;
  }

  lemma SameKeySameCandidate(cands: seq<Candidate>, a: Candidate, b: Candidate)
    requires !Collide(cands) && a in cands && b in cands && HostPortOrEmpty(a) == HostPortOrEmpty(b)
    ensures a == b
  {
  }

  // ---- Why no two sessions share a key ----

  /** The positions of the peers that answered, in order. */
  lemma {:induction false} FoundPositions(w: World, peers: seq<Peer>) returns (at: seq<nat>)
    ensures |at| == |Found(w, peers)|
    ensures forall k :: 0 <= k < |at| ==> at[k] < |peers| && Answers(w, peers[at[k]], Found(w, peers)[k])
    ensures forall k, m :: 0 <= k < m < |at| ==> at[k] < at[m]
    ensures forall i :: 0 <= i < |peers| && w.probe(peers[i]).Some? ==> i in at
  {
    if peers == [] {
      at := [];
    } else {
      var n := |peers| - 1;
      at := FoundPositions(w, peers[..n]);
      if w.probe(peers[n]).Some? {
        at := at + [n];
      }
    }
  }

  /** c is the candidate made of the peer's answer. */
  predicate Answers(w: World, p: Peer, c: Candidate) {
    && w.probe(p).Some? && c.addr == p.addr && c.port == p.port && !c.local
    && c.name == w.probe(p).value.name && c.info == w.probe(p).value.info && c.mbps == w.probe(p).value.mbps
  }

  lemma KeyOf(w: World, p: Peer, c: Candidate)
    requires Answers(w, p, c)
    ensures HostPortOrEmpty(c) == if p.addr == "" then "" else HostPort(p)
    ensures HostPort(p) != ""
  {
  }

  /** A peer that answered and has no address of its own. */
  predicate Nameless(w: World, p: Peer) {
    p.addr == "" && w.probe(p).Some?
  }

  /** Over a list without duplicate targets, sessions would share a key exactly
      when two peers without an address both answered. */
  lemma CollideIff(w: World, peers: seq<Peer>)
    requires DistinctTargets(peers)
    ensures Collide(Found(w, peers)) <==>
              exists i, j :: 0 <= i < j < |peers| && Nameless(w, peers[i]) && Nameless(w, peers[j])
  {
    if Collide(Found(w, peers)) {
      var i, j := CollisionIsNameless(w, peers);
    }
    if i, j :| 0 <= i < j < |peers| && Nameless(w, peers[i]) && Nameless(w, peers[j]) {
      NamelessCollide(w, peers, i, j);
    }
  }

  lemma CollisionIsNameless(w: World, peers: seq<Peer>) returns (i: nat, j: nat)
    requires DistinctTargets(peers) && Collide(Found(w, peers))
    ensures i < j < |peers| && Nameless(w, peers[i]) && Nameless(w, peers[j])
  {
    var cands := Found(w, peers);
    var at := FoundPositions(w, peers);
    var a, b :| 0 <= a < b < |cands| && HostPortOrEmpty(cands[a]) == HostPortOrEmpty(cands[b]);
    i, j := at[a], at[b];
    KeyOf(w, peers[i], cands[a]);
    KeyOf(w, peers[j], cands[b]);
    assert HostPort(peers[i]) != HostPort(peers[j]);
  }

  lemma NamelessCollide(w: World, peers: seq<Peer>, i: nat, j: nat)
    requires i < j < |peers| && Nameless(w, peers[i]) && Nameless(w, peers[j])
    ensures Collide(Found(w, peers))
  {
    var at := FoundPositions(w, peers);
    var k :| 0 <= k < |at| && at[k] == i;
    var m :| 0 <= m < |at| && at[m] == j;
    KeyOf(w, peers[i], Found(w, peers)[k]);
    KeyOf(w, peers[j], Found(w, peers)[m]);
    assert k < m;
  }

  lemma GatheredAddressed(src: Sources)
    ensures Addressed(Gathered(src)) && DistinctTargets(Gathered(src))
  {
    var mdns, named := Browsed(src.entries, src.mbps), Parsed(SplitComma(src.env, "")) + Parsed(src.flags);
    BrowsedAddressed(src.entries, src.mbps);
    ParsedAddressed(SplitComma(src.env, ""));
    ParsedAddressed(src.flags);
    OthersAreListed(mdns, src.self);
    FirstOfEachDistinct(Others(mdns, src.self) + named);
    forall p | p in Gathered(src) ensures p.addr != "" {
      assert p in Others(mdns, src.self) + named;
    }
  }

  lemma {:induction false} OthersAreListed(mdns: seq<Peer>, self: string)
    ensures forall p :: p in Others(mdns, self) ==> p in mdns
  {
    if mdns != [] {
      OthersAreListed(mdns[..|mdns| - 1], self);
    }
  }

  /** What the parser, the browser and the merge guard against: whatever the
      sources list and in whatever order the probes report, keys are distinct. */
  lemma GatheredNeverCollide(w: World, src: Sources, order: seq<nat>)
    requires IsOrder(order, |Gathered(src)|)
    ensures !Collide(Found(w, Arrivals(src, order)))
  {
    var gathered, arrivals := Gathered(src), Arrivals(src, order);
    GatheredAddressed(src);
    forall i, j | 0 <= i < j < |arrivals| ensures HostPort(arrivals[i]) != HostPort(arrivals[j]) {
      var a, b := order[i], order[j];
      assert if a < b then HostPort(gathered[a]) != HostPort(gathered[b])
             else HostPort(gathered[b]) != HostPort(gathered[a]);
    }
    forall i | 0 <= i < |arrivals| ensures arrivals[i].addr != "" {
      assert arrivals[i] == gathered[order[i]] && gathered[order[i]] in gathered;
    }
    CollideIff(w, arrivals);
  }

  // ---- What an exit code tells ----

  /** The outcome is knit's own failure rather than the command's end. */
  predicate KnitFailed(w: World, o: Outcome) {
    match o
    case RanLocally(_) => w.local.WaitError?
    case Streamed(best, _) => !w.stream(best).CommandEnded?
    case _ => true
  }

  /** The codes both knit and a command can return. */
  predicate Shared(code: int) {
    || code == 1 || code == EXIT_USAGE || code == EXIT_DISCONNECTED
    || code == EXIT_UNREACHABLE || code == EXIT_UNAUTHORIZED
  }

  /** knit's failures report only shared codes, so any other code is the command's. */
  lemma OtherCodesAreTheCommands(w: World, o: Outcome)
    ensures KnitFailed(w, o) ==> Shared(CodeOf(w, o))
  {
  }

  /** Run can return code for a failure of knit's own, and for the command's end. */
  ghost predicate Confusable(code: int) {
    && (exists c, w, o :: IsCall(c) && MayReport(c, w, o) && KnitFailed(w, o) && CodeOf(w, o) == code)
    && (exists c, w, o :: IsCall(c) && MayReport(c, w, o) && !KnitFailed(w, o) && CodeOf(w, o) == code)
  }

  /** Over everything Run can report: the code it returns does not say whose it is
      exactly for 1, 2, 124, 126 and 127. */
  lemma ConfusableIff(code: int)
    ensures Confusable(code) <==> Shared(code)
  {
    if Confusable(code) {
      var c, w, o :| IsCall(c) && MayReport(c, w, o) && KnitFailed(w, o) && CodeOf(w, o) == code;
      OtherCodesAreTheCommands(w, o);
    }
    if Shared(code) {
      var c, w, o := KnitSays(code);
      c, w, o := CommandSays(code as byte);
    }
  }

  // ---- Runs that show it ----

  const HERE := Candidate("here", "", 0, Info(1, 0.0, 0.0, ""), true, 0)
  const NO_PEERS := Sources("here", [], (a: string) => 0, "", [])
  const ONE_PEER := Sources("here", [], (a: string) => 0, "", ["there"])
  const THERE := Candidate("there", "there", DEFAULT_PORT, Info(1, 0.0, 0.0, ""), false, 0)

  function Anywhere(on: string): Placement {
    Placement(on, 0.0, "")
  }

  lemma EmptyEnv()
    ensures Parsed(SplitComma("", "")) == []
  {
    var one: seq<string> := [""];
    assert SplitComma("", "") == one && one[..0] == [];
    assert Parsed(one) == [];
  }

  lemma NoPeers()
    ensures Gathered(NO_PEERS) == []
  {
    EmptyEnv();
    var none: seq<Peer> := [];
    assert Parsed([]) == none && Browsed([], NO_PEERS.mbps) == none;
    assert none + (none + none) == none;
  }

  lemma OnePeer()
    ensures Gathered(ONE_PEER) == [Peer("", "there", DEFAULT_PORT)]
  {
    EmptyEnv();
    var none: seq<Peer>, items: seq<string>, it := [], ["there"], "there";
    assert Browsed([], ONE_PEER.mbps) == none;
    assert Trim(it) == it && ':' !in it;
    assert items[..0] == [] && Parsed(items[..0]) == none;
    var p := Peer("", "there", DEFAULT_PORT);
    assert ParsePeer(it) == Some(p);
    assert Parsed(items) == none + [p] == [p];
    assert none + (none + [p]) == [p] && [p][..0] == none;
    assert FirstOfEach([p]) == FirstOfEach(none) + [p] == [p];
  }

  /** The call that names the one peer, which answers its probe. */
  const TO_PEER := Call(["make"], Anywhere("there"), true, HERE, ONE_PEER, [0])

  function PeerWorld(reuse: bool, refused: Option<OpenError>): World {
    World(p => Some(Report("there", Info(1, 0.0, 0.0, ""), 0)), c => reuse, c => refused, c => LinkLost, Exited(0))
  }

  lemma PeerEligible(w: World)
    requires w.probe(Peer("", "there", DEFAULT_PORT)) == Some(Report("there", Info(1, 0.0, 0.0, ""), 0))
    ensures IsCall(TO_PEER) && Eligible(TO_PEER, w) == [HERE, THERE]
  {
    var p := Peer("", "there", DEFAULT_PORT);
    OneArrival();
    OneFound(w, p);
    assert CandidateOf(p, w.probe(p).value) == THERE;
    TwoKept();
  }

  lemma TwoKept()
    ensures Kept([HERE] + [THERE], 0.0, "") == [HERE, THERE]
  {
    KeptAll([HERE] + [THERE]);
  }

  lemma OneArrival()
    ensures IsCall(TO_PEER) && Arrivals(ONE_PEER, [0]) == [Peer("", "there", DEFAULT_PORT)]
  {
    OnePeer();
  }

  lemma OneFound(w: World, p: Peer)
    requires w.probe(p).Some?
    ensures Found(w, [p]) == [CandidateOf(p, w.probe(p).value)]
  {
    assert [p][..0] == [];
    assert Found(w, [p][..0]) == [];
  }

  lemma {:induction false} KeptAll(cands: seq<Candidate>)
    ensures Kept(cands, 0.0, "") == cands
  {
    if cands != [] {
      KeptAll(cands[..|cands| - 1]);
      assert cands == cands[..|cands| - 1] + [cands[|cands| - 1]];
    }
  }

  /** The one peer is the choice, so the world's answers decide the outcome. */
  lemma PeerChosen(reuse: bool, refused: Option<OpenError>, o: Outcome)
    requires o.Streamed? || o.NotOpened?
    requires o.best == THERE && Opened(PeerWorld(reuse, refused), o)
    ensures IsCall(TO_PEER) && MayReport(TO_PEER, PeerWorld(reuse, refused), o)
  {
    PeerEligible(PeerWorld(reuse, refused));
    assert [HERE, THERE][1] == THERE && [HERE, THERE][0].name != "there";
    assert IsChoice(TO_PEER.p, [HERE, THERE], THERE);
  }

  lemma LocalCall(on: string)
    ensures var c := Call(["make"], Anywhere(on), true, HERE, NO_PEERS, []);
            IsCall(c) && forall w: World :: Eligible(c, w) == [HERE]
  {
    NoPeers();
    KeptAll([HERE]);
    var c := Call(["make"], Anywhere(on), true, HERE, NO_PEERS, []);
    forall w: World ensures Eligible(c, w) == [HERE] {
      assert Arrivals(NO_PEERS, []) == [];
      assert [HERE] + Found(w, []) == [HERE];
    }
  }

  lemma CommandSays(status: byte) returns (c: Call, w: World, o: Outcome)
    ensures IsCall(c) && MayReport(c, w, o) && !KnitFailed(w, o) && CodeOf(w, o) == status as int
  {
    LocalCall("");
    c := Call(["make"], Anywhere(""), true, HERE, NO_PEERS, []);
    w := World(p => None, c => false, c => None, c => LinkLost, Exited(status));
    o := RanLocally(HERE);
    assert Eligible(c, w) == [HERE] && PickFrom([HERE]) == HERE;
  }

  lemma KnitSays(code: int) returns (c: Call, w: World, o: Outcome)
    requires Shared(code)
    ensures IsCall(c) && MayReport(c, w, o) && KnitFailed(w, o) && CodeOf(w, o) == code
  {
    NoPeers();
    w := PeerWorld(true, None);
    if code == 1 {
      c, o := Call(["make"], Anywhere(""), false, HERE, NO_PEERS, []), NoKey;
    } else if code == EXIT_USAGE {
      c, o := Call([], Anywhere(""), true, HERE, NO_PEERS, []), NoCommand;
    } else if code == EXIT_UNREACHABLE {
      LocalCall("elsewhere");
      c, o := Call(["make"], Anywhere("elsewhere"), true, HERE, NO_PEERS, []), NoSuchMachine;
      assert Eligible(c, w) == [HERE];
    } else if code == EXIT_UNAUTHORIZED {
      w, c, o := PeerWorld(false, Some(KeyRefused)), TO_PEER, NotOpened(THERE, KeyRefused);
      PeerChosen(false, Some(KeyRefused), o);
    } else {
      c, o := TO_PEER, Streamed(THERE, true);
      PeerChosen(true, None, o);
    }
  }
}
