/** Dial targets, and the merged, de-duplicated list of peers to probe. */
module Peers {
  import opened Prelude

  datatype Peer = Peer(name: string, addr: string, port: int)

  // ---- host:port ----

  function Digit(n: nat): char
    requires n < 10
  {
    '0' + n as char
  }

  function Digits(n: nat): string {
    if n < 10 then [Digit(n)] else Digits(n / 10) + [Digit(n % 10)]
  }

  /** strconv.Itoa */
  function Itoa(n: int): string {
    if n < 0 then "-" + Digits(-n) else Digits(n)
  }

  /** net.JoinHostPort: an address with a colon is bracketed. */
  function JoinHostPort(host: string, port: int): string {
    if ':' in host then "[" + host + "]:" + Itoa(port) else host + ":" + Itoa(port)
  }

  function HostPort(p: Peer): string {
    JoinHostPort(p.addr, p.port)
  }

  lemma {:induction false} DigitsAre(n: nat)
    ensures Digits(n) != [] && forall i :: 0 <= i < |Digits(n)| ==> '0' <= Digits(n)[i] <= '9'
  {
    if n >= 10 {
      DigitsAre(n / 10);
    }
  }

  lemma {:induction false} DigitsInjective(m: nat, n: nat)
    requires Digits(m) == Digits(n)
    ensures m == n
    decreases m
  {
    DigitsAre(m / 10);
    DigitsAre(n / 10);
    var a, b := Digits(m), Digits(n);
    assert a[|a| - 1] == Digit(m % 10) && b[|b| - 1] == Digit(n % 10);
    if m >= 10 && n >= 10 {
      assert Digits(m / 10) == a[..|a| - 1] == Digits(n / 10);
      DigitsInjective(m / 10, n / 10);
    }
  }

  lemma ItoaInjective(m: int, n: int)
    requires Itoa(m) == Itoa(n)
    ensures m == n
  {
    SignShows(m);
    SignShows(n);
    if m < 0 {
      DigitsInjective(-m, -n);
    } else {
      DigitsInjective(m, n);
    }
  }

  lemma SignShows(n: int)
    ensures Itoa(n) != "" && (Itoa(n)[0] == '-' <==> n < 0)
    ensures n < 0 ==> Itoa(n)[1..] == Digits(-n)
  {
    if n < 0 {
      assert ("-" + Digits(-n))[1..] == Digits(-n);
    } else {
      DigitsAre(n);
    }
  }

  lemma PortHasNoColon(n: int)
    ensures ':' !in Itoa(n)
  {
    DigitsAre(if n < 0 then -n else n);
  }

  lemma NoColonAfter(a: string, x: string)
    requires ':' !in x
    ensures forall i :: |a| < i < |a + ":" + x| ==> (a + ":" + x)[i] != ':'
  {
  }

  /** Text before the last colon, text after it. */
  lemma LastColon(a: string, x: string, b: string, y: string)
    requires ':' !in x && ':' !in y && a + ":" + x == b + ":" + y
    ensures a == b && x == y
  {
    var s := a + ":" + x;
    assert s[|a|] == ':';
    assert s == b + ":" + y && s[|b|] == ':';
    NoColonAfter(a, x);
    NoColonAfter(b, y);
    assert |a| == |b|;
    assert a == s[..|a|] == b;
    assert x == s[|a| + 1..] == y;
  }

  function Bracketed(h: string): string {
    if ':' in h then "[" + h + "]" else h
  }

  lemma JoinIs(h: string, p: int)
    ensures JoinHostPort(h, p) == Bracketed(h) + ":" + Itoa(p)
  {
    Assoc("[" + h, "]", ":");
  }

  /** Distinct addresses or ports are distinct dial targets. */
  lemma JoinHostPortInjective(h: string, p: int, h': string, p': int)
    ensures JoinHostPort(h, p) == JoinHostPort(h', p') <==> h == h' && p == p'
  {
    if JoinHostPort(h, p) == JoinHostPort(h', p') {
      PortHasNoColon(p);
      PortHasNoColon(p');
      JoinIs(h, p);
      JoinIs(h', p');
      LastColon(Bracketed(h), Itoa(p), Bracketed(h'), Itoa(p'));
      ItoaInjective(p, p');
      Brackets(h, h');
    }
  }

  /** A bracketed host is told from a bare one by the colon inside. */
  lemma Brackets(h: string, h': string)
    requires Bracketed(h) == Bracketed(h')
    ensures h == h'
  {
    Inside(h);
    Inside(h');
  }

  lemma Inside(h: string)
    ensures ("[" + h + "]")[1..|h| + 1] == h
    ensures ':' in "[" + h + "]" <==> ':' in h
  {
  }

  // ---- gatherPeers ----

  /** The first peer for each dial target, in order. */
  function FirstOfEach(ps: seq<Peer>): seq<Peer> {
    if ps == [] then []
    else
      var init, p := FirstOfEach(ps[..|ps| - 1]), ps[|ps| - 1];
      if Listed(ps[..|ps| - 1], p) then init else init + [p]
  }

  function Others(mdns: seq<Peer>, self: string): seq<Peer> {
    if mdns == [] then []
    else
      var init, p := Others(mdns[..|mdns| - 1], self), mdns[|mdns| - 1];
      if p.name == self then init else init + [p]
  }

  /** at are the positions of the peers not named self, in order, and out are those peers. */
  predicate Unnamed(mdns: seq<Peer>, self: string, at: seq<nat>, out: seq<Peer>) {
    && |at| == |out|
    && (forall k :: 0 <= k < |at| ==> at[k] < |mdns| && mdns[at[k]] == out[k] && out[k].name != self)
    && (forall k, m :: 0 <= k < m < |at| ==> at[k] < at[m])
    && (forall i :: 0 <= i < |mdns| && mdns[i].name != self ==> i in at)
  }

  /** Exactly the peers not named self, in order. */
  lemma {:induction false} OthersAre(mdns: seq<Peer>, self: string) returns (at: seq<nat>)
    ensures Unnamed(mdns, self, at, Others(mdns, self))
  {
    if mdns == [] {
      at := [];
    } else {
      var n := |mdns| - 1;
      var init, p := mdns[..n], mdns[n];
      var out := Others(init, self);
      assert Others(mdns, self) == if p.name == self then out else out + [p];
      at := OthersAre(init, self);
      UnnamedSnoc(mdns, n, self, at, out);
      if p.name != self {
        at := at + [n];
      }
    }
  }

  lemma UnnamedSnoc(mdns: seq<Peer>, n: nat, self: string, at: seq<nat>, out: seq<Peer>)
    requires n + 1 == |mdns| && Unnamed(mdns[..n], self, at, out)
    ensures mdns[n].name == self ==> Unnamed(mdns, self, at, out)
    ensures mdns[n].name != self ==> Unnamed(mdns, self, at + [n], out + [mdns[n]])
  {
    var init := mdns[..n];
    forall i | 0 <= i < n && mdns[i].name != self ensures i in at {
      assert init[i] == mdns[i];
    }
    if mdns[n].name != self {
      var more := at + [n];
      assert more[|at|] == n;
      forall i | 0 <= i < n && mdns[i].name != self ensures i in more {
        assert i in at;
      }
    }
  }

  lemma OthersKept(mdns: seq<Peer>, self: string)
    ensures forall p :: p in Others(mdns, self) <==> p in mdns && p.name != self
  {
    var at := OthersAre(mdns, self);
    forall p | p in Others(mdns, self) ensures p in mdns && p.name != self {
      var k :| 0 <= k < |at| && Others(mdns, self)[k] == p;
      assert mdns[at[k]] == p;
    }
    forall p | p in mdns && p.name != self ensures p in Others(mdns, self) {
      var i :| 0 <= i < |mdns| && mdns[i] == p;
      var k :| 0 <= k < |at| && at[k] == i;
      assert Others(mdns, self)[k] == p;
    }
  }

  predicate DistinctTargets(ps: seq<Peer>) {
    forall i, j :: 0 <= i < j < |ps| ==> HostPort(ps[i]) != HostPort(ps[j])
  }

  predicate Listed(ps: seq<Peer>, p: Peer) {
    exists q :: q in ps && HostPort(q) == HostPort(p)
  }

  lemma {:induction false} FirstOfEachDistinct(ps: seq<Peer>)
    ensures DistinctTargets(FirstOfEach(ps))
    ensures forall p :: p in FirstOfEach(ps) ==> p in ps
  {
    if ps != [] {
      var init, p := ps[..|ps| - 1], ps[|ps| - 1];
      FirstOfEachDistinct(init);
      var out := FirstOfEach(init);
      if !Listed(init, p) {
        forall i | 0 <= i < |out| ensures HostPort(out[i]) != HostPort(p) {
          assert out[i] in out && out[i] in init;
        }
      }
    }
  }

  lemma {:induction false} FirstOfEachCovers(ps: seq<Peer>, p: Peer)
    requires p in ps
    ensures Listed(FirstOfEach(ps), p)
  {
    var init, last := ps[..|ps| - 1], ps[|ps| - 1];
    if p in init {
      FirstOfEachCovers(init, p);
      var q :| q in FirstOfEach(init) && HostPort(q) == HostPort(p);
      assert q in FirstOfEach(ps);
    } else if x :| x in init && HostPort(x) == HostPort(last) {
      assert p == last;
      FirstOfEachCovers(init, x);
      var q :| q in FirstOfEach(init) && HostPort(q) == HostPort(x);
      assert q in FirstOfEach(ps);
    } else {
      assert p == last && p in FirstOfEach(ps);
    }
  }

  /** Of several peers with one target the first listed is the one kept. */
  lemma {:induction false} FirstIsKept(ps: seq<Peer>, i: nat)
    requires i < |ps| && forall j :: 0 <= j < i ==> HostPort(ps[j]) != HostPort(ps[i])
    ensures ps[i] in FirstOfEach(ps)
    decreases |ps|
  {
    var n := |ps| - 1;
    var init := ps[..n];
    if i < n {
      assert init[i] == ps[i];
      FirstIsKept(init, i);
    } else {
      NotListed(init, ps[n]);
    }
  }

  lemma NotListed(ps: seq<Peer>, p: Peer)
    requires forall j :: 0 <= j < |ps| ==> HostPort(ps[j]) != HostPort(p)
    ensures !Listed(ps, p)
  {
  }

  /** Of two lists put together, the front one's peers are the ones kept. */
  lemma {:induction false} FrontWins(front: seq<Peer>, back: seq<Peer>, p: Peer)
    requires p in FirstOfEach(front + back) && Listed(front, p)
    ensures p in front
    decreases |back|
  {
    if back == [] {
      assert front + back == front;
      FirstOfEachDistinct(front);
    } else {
      var n := |back| - 1;
      assert front + back == (front + back[..n]) + [back[n]];
      ListedOn(front, back[..n], p);
      LastAdds(front + back[..n], back[n], p);
      FrontWins(front, back[..n], p);
    }
  }

  lemma ListedOn(front: seq<Peer>, back: seq<Peer>, p: Peer)
    requires Listed(front, p)
    ensures Listed(front + back, p)
  {
    var q :| q in front && HostPort(q) == HostPort(p);
    assert q in front + back;
  }

  /** One more peer makes no difference to the targets already listed. */
  lemma LastAdds(init: seq<Peer>, last: Peer, p: Peer)
    requires p in FirstOfEach(init + [last]) && Listed(init, p)
    ensures p in FirstOfEach(init)
  {
    assert (init + [last])[..|init|] == init;
  }

  predicate Same(p: Peer, q: Peer) {
    p.addr == q.addr && p.port == q.port
  }

  lemma SameTarget(p: Peer, q: Peer)
    ensures HostPort(p) == HostPort(q) <==> Same(p, q)
  {
    JoinHostPortInjective(p.addr, p.port, q.addr, q.port);
  }

  /** The list has every address and port listed exactly once, and no others. */
  lemma EachTargetOnce(ps: seq<Peer>)
    ensures forall p :: p in ps ==> exists q :: q in FirstOfEach(ps) && Same(q, p)
    ensures forall i, j :: 0 <= i < j < |FirstOfEach(ps)| ==> !Same(FirstOfEach(ps)[i], FirstOfEach(ps)[j])
    ensures forall q :: q in FirstOfEach(ps) ==> q in ps
  {
    FirstOfEachDistinct(ps);
    var out := FirstOfEach(ps);
    forall p | p in ps ensures exists q :: q in out && Same(q, p) {
      FirstOfEachCovers(ps, p);
      var q :| q in out && HostPort(q) == HostPort(p);
      SameTarget(q, p);
    }
    forall i, j | 0 <= i < j < |out| ensures !Same(out[i], out[j]) {
      SameTarget(out[i], out[j]);
    }
  }

  /** The add closure of gatherPeers and the state it captures. */
  class Gathering {
    var seen: set<string>
    var out: seq<Peer>
    ghost var listed: seq<Peer>

    constructor ()
      ensures Valid() && listed == []
    {
      seen, out, listed := {}, [], [];
    }

    ghost predicate Valid()
      reads this
    {
      out == FirstOfEach(listed) && forall s :: s in seen <==> exists p :: p in listed && HostPort(p) == s
    }

    method Add(p: Peer)
      requires Valid()
      modifies this
      ensures Valid() && listed == old(listed) + [p]
    {
      var hp := HostPort(p);
      ghost var was := listed;
      listed := listed + [p];
      assert listed[..|listed| - 1] == was;
      if hp in seen {
        return;
      }
      seen := seen + {hp};
      out := out + [p];
    }
  }

  method GatherPeers(self: string, mdns: seq<Peer>, named: seq<Peer>) returns (out: seq<Peer>)
    ensures out == FirstOfEach(Others(mdns, self) + named)
  {
    var g := new Gathering();
    AddOthers(g, mdns, self);
    AddNamed(g, named);
    return g.out;
  }

  method AddNamed(g: Gathering, named: seq<Peer>)
    requires g.Valid()
    modifies g
    ensures g.Valid() && g.listed == old(g.listed) + named
  {
    ghost var first := g.listed;
    for k := 0 to |named|
      invariant g.Valid() && g.listed == first + named[..k]
    {
      assert first + named[..k + 1] == (first + named[..k]) + [named[k]];
      g.Add(named[k]);
    }
    assert named[..|named|] == named;
  }

  /** The discovered peers, without this machine's own agent. */
  method AddOthers(g: Gathering, mdns: seq<Peer>, self: string)
    requires g.Valid() && g.listed == []
    modifies g
    ensures g.Valid() && g.listed == Others(mdns, self)
  {
    for k := 0 to |mdns|
      invariant g.Valid() && g.listed == Others(mdns[..k], self)
    {
      assert mdns[..k + 1][..k] == mdns[..k];
      if mdns[k].name != self {
        g.Add(mdns[k]);
      }
    }
    assert mdns[..|mdns|] == mdns;
  }
}
