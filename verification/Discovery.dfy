/** Where peers come from: host:port strings the user gave, and mDNS entries. */
module Discovery {
  import opened Prelude
  import opened Peers

  const DEFAULT_PORT: int := 5648

  // ---- Strings ----

  predicate IsSpace(c: char) {
    || '\t' <= c <= '\r' || c == ' ' || c == '\U{0085}' || c == '\U{00A0}' || c == '\U{1680}'
    || '\U{2000}' <= c <= '\U{200A}' || c == '\U{2028}' || c == '\U{2029}' || c == '\U{202F}'
    || c == '\U{205F}' || c == '\U{3000}'
  }

  /** strings.TrimSpace */
  function Trim(s: string): string
    decreases |s|
  {
    if s == "" then ""
    else if IsSpace(s[0]) then Trim(s[1..])
    else if IsSpace(s[|s| - 1]) then Trim(s[..|s| - 1])
    else s
  }

  predicate Blank(s: string) {
    forall i :: 0 <= i < |s| ==> IsSpace(s[i])
  }

  /** Only white space comes off, and none is left at either end. */
  lemma {:induction false} TrimIs(s: string) returns (a: string, b: string)
    ensures s == a + (Trim(s) + b) && Blank(a) && Blank(b)
    ensures Trim(s) != "" ==> !IsSpace(Trim(s)[0]) && !IsSpace(Trim(s)[|Trim(s)| - 1])
    decreases |s|
  {
    a, b := "", "";
    if s == "" {
    } else if IsSpace(s[0]) {
      a, b := TrimIs(s[1..]);
      assert s == [s[0]] + s[1..];
      Assoc([s[0]], a, Trim(s) + b);
      a := [s[0]] + a;
    } else if IsSpace(s[|s| - 1]) {
      var init, last := s[..|s| - 1], [s[|s| - 1]];
      a, b := TrimIs(init);
      assert s == init + last;
      Assoc(a, Trim(s) + b, last);
      Assoc(Trim(s), b, last);
      b := b + last;
    }
  }

  lemma {:induction false} TrimTwice(s: string)
    ensures Trim(Trim(s)) == Trim(s)
  {
    var a, b := TrimIs(s);
  }

  /** strings.Split on a comma; word is the piece being read. */
  function SplitComma(s: string, word: string): seq<string> {
    if s == "" then [word]
    else if s[0] == ',' then [word] + SplitComma(s[1..], "")
    else SplitComma(s[1..], word + [s[0]])
  }

  function JoinComma(pieces: seq<string>): string {
    if pieces == [] then "" else if |pieces| == 1 then pieces[0] else pieces[0] + "," + JoinComma(pieces[1..])
  }

  /** The pieces hold no comma, and joined by commas they are the text again. */
  lemma {:induction false} SplitCommaJoins(s: string, word: string)
    requires ',' !in word
    ensures SplitComma(s, word) != [] && JoinComma(SplitComma(s, word)) == word + s
    ensures forall p :: p in SplitComma(s, word) ==> ',' !in p
    decreases |s|
  {
    if s == "" {
      assert word + s == word;
    } else if s[0] == ',' {
      SplitCommaJoins(s[1..], "");
      var pieces := SplitComma(s[1..], "");
      assert ([word] + pieces)[1..] == pieces && "" + s[1..] == s[1..];
      assert s == "," + s[1..];
      Assoc(word, ",", s[1..]);
    } else {
      SplitCommaJoins(s[1..], word + [s[0]]);
      assert word + [s[0]] + s[1..] == word + s;
    }
  }

  function IndexOf(s: string, c: char): (r: Option<nat>)
    ensures r.Some? ==> r.value < |s| && s[r.value] == c
  {
    if s == "" then None
    else if s[0] == c then Some(0)
    else
      match IndexOf(s[1..], c)
      case None => None
      case Some(i) => Some(i + 1)
  }

  function LastIndexOf(s: string, c: char): (r: Option<nat>)
    ensures r.Some? ==> r.value < |s| && s[r.value] == c && c !in s[r.value + 1..]
    ensures r.None? ==> c !in s
  {
    if s == "" then None
    else if s[|s| - 1] == c then Some(|s| - 1)
    else
      var r := LastIndexOf(s[..|s| - 1], c);
      assert s == s[..|s| - 1] + [s[|s| - 1]];
      assert r.Some? ==> s[r.value + 1..] == s[..|s| - 1][r.value + 1..] + [s[|s| - 1]];
      r
  }

  // ---- host:port ----

  datatype HostPortParts = Parts(host: string, port: string) | BadHostPort

  /** net.SplitHostPort */
  function SplitHostPort(s: string): HostPortParts {
    match LastIndexOf(s, ':')
    case None => BadHostPort                                    // missing port
    case Some(i) =>
      if s[0] == '[' then
        match IndexOf(s, ']')
        case None => BadHostPort                                // missing ']'
        case Some(end) =>
          if end + 1 != i || '[' in s[1..] || ']' in s[i..] then BadHostPort
          else Parts(s[1..end], s[i + 1..])
      else if ':' in s[..i] || '[' in s || ']' in s then BadHostPort
      else Parts(s[..i], s[i + 1..])
  }

  predicate IsDigit(c: char) {
    '0' <= c <= '9'
  }

  function DigitsValue(s: string): Option<nat> {
    if s == "" || !IsDigit(s[|s| - 1]) then None
    else
      var d := s[|s| - 1] as nat - '0' as nat;
      if |s| == 1 then Some(d)
      else
        match DigitsValue(s[..|s| - 1])
        case None => None
        case Some(n) => Some(10 * n + d)
  }

  /** strconv.Atoi, without its range check: larger values are refused anyway. */
  function Atoi(s: string): Option<int> {
    var digits := if s != "" && (s[0] == '+' || s[0] == '-') then s[1..] else s;
    match DigitsValue(digits)
    case None => None
    case Some(n) =>
      var value: int := n;
      Some(if s[0] == '-' then -value else value)
  }

  function ParsePeer(hostPort: string): (r: Option<Peer>)
    ensures r.Some? ==> r.value.name == "" && r.value.addr != "" && 1 <= r.value.port <= 65535
  {
    var s := Trim(hostPort);
    if ':' !in s then
      if s == "" then None else Some(Peer("", s, DEFAULT_PORT))
    else
      match SplitHostPort(s)
      case BadHostPort => None
      case Parts(host, port) =>
        if host == "" then None
        else
          match Atoi(port)
          case None => None
          case Some(n) => if n <= 0 || n > 65535 then None else Some(Peer("", host, n))
  }

  predicate Unbracketed(s: string) {
    '[' !in s && ']' !in s
  }

  /** A text is split at its last colon: a host without colons in front of it, or one
      in brackets. */
  lemma SplitShape(s: string)
    requires SplitHostPort(s).Parts?
    ensures var r := SplitHostPort(s);
            && Unbracketed(r.host) && Unbracketed(r.port) && ':' !in r.port
            && ((':' !in r.host && s == r.host + ":" + r.port) || s == "[" + r.host + "]:" + r.port)
  {
    var i := LastIndexOf(s, ':').value;
    if s[0] == '[' {
      var end := IndexOf(s, ']').value;
      IndexIsFirst(s, ']');
      assert s == "[" + s[1..end] + "]:" + s[i + 1..];
      assert forall k :: 1 <= k < |s| ==> s[k] in s[1..];
      assert forall k :: i <= k < |s| ==> s[k] in s[i..];
    } else {
      assert s == s[..i] + ":" + s[i + 1..];
    }
  }

  lemma {:induction false} IndexIsFirst(s: string, c: char)
    requires IndexOf(s, c).Some?
    ensures c !in s[..IndexOf(s, c).value]
  {
    if s[0] != c {
      IndexIsFirst(s[1..], c);
      var i := IndexOf(s[1..], c).value;
      assert s[..i + 1] == [s[0]] + s[1..][..i];
    }
  }

  /** What a text with a colon must look like to name a peer. */
  lemma AcceptedShape(s: string) returns (host: string, port: string)
    requires ParsePeer(s).Some? && ':' in Trim(s)
    ensures ParsePeer(s).value.addr == host && Atoi(port) == Some(ParsePeer(s).value.port)
    ensures Unbracketed(host) && Unbracketed(port) && ':' !in port
    ensures (':' !in host && Trim(s) == host + ":" + port) || Trim(s) == "[" + host + "]:" + port
  {
    SplitShape(Trim(s));
    host, port := SplitHostPort(Trim(s)).host, SplitHostPort(Trim(s)).port;
  }

  /** A text without a colon is a host on the default port, or blank. */
  lemma BareHost(s: string)
    requires ':' !in s
    ensures ParsePeer(s) == if Trim(s) == "" then None else Some(Peer("", Trim(s), 5648))
  {
    var a, b := TrimIs(s);
    assert forall c :: c in Trim(s) ==> c in s;
  }

  /** Blanks and what does not parse are dropped, the order kept. */
  function Parsed(items: seq<string>): seq<Peer> {
    if items == [] then []
    else
      var init, p := Parsed(items[..|items| - 1]), ParsePeer(Trim(items[|items| - 1]));
      if p.None? then init else init + [p.value]
  }

  function Successes(tries: seq<Option<Peer>>): seq<Peer> {
    if tries == [] then []
    else
      var init, p := Successes(tries[..|tries| - 1]), tries[|tries| - 1];
      if p.None? then init else init + [p.value]
  }

  /** out is what tries yields at the positions at: all that succeed, in order. */
  predicate Yields(tries: seq<Option<Peer>>, at: seq<nat>, out: seq<Peer>) {
    && |at| == |out|
    && (forall k :: 0 <= k < |at| ==> at[k] < |tries| && tries[at[k]] == Some(out[k]))
    && (forall k, m :: 0 <= k < m < |at| ==> at[k] < at[m])
    && (forall i :: 0 <= i < |tries| && tries[i].Some? ==> i in at)
  }

  lemma {:induction false} SuccessesAre(tries: seq<Option<Peer>>) returns (at: seq<nat>)
    ensures Yields(tries, at, Successes(tries))
  {
    if tries == [] {
      at := [];
    } else {
      var n := |tries| - 1;
      var init := SuccessesAre(tries[..n]);
      at := if tries[n].Some? then init + [n] else init;
      YieldsSnoc(tries, n, init, Successes(tries[..n]));
    }
  }

  lemma YieldsSnoc(tries: seq<Option<Peer>>, n: nat, at: seq<nat>, out: seq<Peer>)
    requires n + 1 == |tries| && Yields(tries[..n], at, out)
    ensures tries[n].None? ==> Yields(tries, at, out)
    ensures tries[n].Some? ==> Yields(tries, at + [n], out + [tries[n].value])
  {
    var init := tries[..n];
    forall i | 0 <= i < n && tries[i].Some? ensures i in at {
      assert init[i] == tries[i];
    }
    if tries[n].Some? {
      var more := at + [n];
      assert more[|at|] == n;
      forall i | 0 <= i < n && tries[i].Some? ensures i in more {
        assert i in at;
      }
    }
  }

  function Tries(items: seq<string>): seq<Option<Peer>> {
    seq(|items|, i requires 0 <= i < |items| => ParsePeer(items[i]))
  }

  lemma {:induction false} ParsedIsSuccesses(items: seq<string>)
    ensures Parsed(items) == Successes(Tries(items))
  {
    if items != [] {
      var n := |items| - 1;
      ParsedIsSuccesses(items[..n]);
      assert Tries(items)[..n] == Tries(items[..n]);
      TrimTwice(items[n]);
    }
  }

  /** Exactly the items that parse, in order. */
  lemma ParsedAre(items: seq<string>) returns (at: seq<nat>)
    ensures Yields(Tries(items), at, Parsed(items))
  {
    ParsedIsSuccesses(items);
    at := SuccessesAre(Tries(items));
  }

  method ParsePeerList(items: seq<string>) returns (out: seq<Peer>)
    ensures out == Parsed(items)
  {
    out := [];
    for k := 0 to |items|
      invariant out == Parsed(items[..k])
    {
      assert items[..k + 1][..k] == items[..k];
      var it := Trim(items[k]);
      if it == "" {
        assert ParsePeer(it).None?;
        continue;
      }
      var p := ParsePeer(it);
      if p.Some? {
        out := out + [p.value];
      }
    }
    assert items[..|items|] == items;
  }

  method EnvPeers(env: string) returns (out: seq<Peer>)
    ensures out == Parsed(SplitComma(env, ""))
  {
    out := ParsePeerList(SplitComma(env, ""));
  }

  // ---- A dial target parses back ----

  lemma {:induction false} DigitsBack(n: nat)
    ensures DigitsValue(Digits(n)) == Some(n)
  {
    DigitsAre(n);
    if n >= 10 {
      DigitsBack(n / 10);
      assert Digits(n)[..|Digits(n)| - 1] == Digits(n / 10);
    }
  }

  lemma {:induction false} LastIndexAt(s: string, t: string, c: char)
    requires c !in t
    ensures LastIndexOf(s + [c] + t, c) == Some(|s|)
    decreases |t|
  {
    var all := s + [c] + t;
    if t != "" {
      assert all[..|all| - 1] == s + [c] + t[..|t| - 1];
      assert all[|all| - 1] == t[|t| - 1];
      LastIndexAt(s, t[..|t| - 1], c);
    }
  }

  lemma {:induction false} IndexAt(s: string, t: string, c: char)
    requires c !in s
    ensures IndexOf(s + [c] + t, c) == Some(|s|)
  {
    var all := s + [c] + t;
    if s != "" {
      assert all[1..] == s[1..] + [c] + t;
      IndexAt(s[1..], t, c);
    }
  }

  /** An address that can be written in a host:port string as it stands. */
  predicate Writable(addr: string) {
    addr != "" && '[' !in addr && ']' !in addr && !IsSpace(addr[0])
  }

  lemma SplitsBare(addr: string, port: string)
    requires Writable(addr) && ':' !in addr
    requires ':' !in port && '[' !in port && ']' !in port
    ensures SplitHostPort(addr + ":" + port) == Parts(addr, port)
  {
    var s := addr + ":" + port;
    LastIndexAt(addr, port, ':');
    assert s[..|addr|] == addr && s[|addr| + 1..] == port;
    assert s[0] == addr[0];
  }

  lemma SplitsBracketed(addr: string, port: string)
    requires Writable(addr) && ':' !in port && '[' !in port && ']' !in port
    ensures SplitHostPort("[" + addr + "]:" + port) == Parts(addr, port)
  {
    var s, head := "[" + addr + "]:" + port, "[" + addr;
    assert s == head + "]" + (":" + port);
    IndexAt(head, ":" + port, ']');
    assert s == (head + "]") + ":" + port;
    LastIndexAt(head + "]", port, ':');
    var i := |head| + 1;
    assert s[1..|head|] == addr && s[i + 1..] == port;
    assert s[1..] == addr + "]:" + port;
    assert s[i..] == ":" + port;
  }

  /** Every address and port survives being written as host:port and parsed: a
      target the user copies from knit's own output names the same peer. */
  lemma TargetParsesBack(addr: string, port: int)
    requires Writable(addr) && 1 <= port <= 65535
    ensures ParsePeer(JoinHostPort(addr, port)) == Some(Peer("", addr, port))
  {
    TargetIsTrim(addr, port);
    AtoiBack(port);
    DigitsAre(port);
    if ':' in addr {
      SplitsBracketed(addr, Itoa(port));
    } else {
      SplitsBare(addr, Itoa(port));
    }
    ParseTrimmed(JoinHostPort(addr, port), addr, port);
  }

  lemma TargetIsTrim(addr: string, port: nat)
    requires Writable(addr)
    ensures Trim(JoinHostPort(addr, port)) == JoinHostPort(addr, port)
    ensures ':' in JoinHostPort(addr, port)
  {
    var s, n := JoinHostPort(addr, port), Itoa(port);
    DigitsAre(port);
    assert s[|s| - 1] == n[|n| - 1];
    if ':' in addr {
      assert s[0] == '[' && s[|addr| + 2] == ':';
    } else {
      assert s[0] == addr[0] && s[|addr|] == ':';
    }
  }

  lemma AtoiBack(port: nat)
    ensures Atoi(Itoa(port)) == Some(port)
  {
    DigitsAre(port);
    DigitsBack(port);
    assert Itoa(port)[0] != '+' && Itoa(port)[0] != '-';
  }

  lemma ParseTrimmed(s: string, addr: string, port: int)
    requires Trim(s) == s && ':' in s && SplitHostPort(s) == Parts(addr, Itoa(port)) && addr != ""
    requires 1 <= port <= 65535 && Atoi(Itoa(port)) == Some(port)
    ensures ParsePeer(s) == Some(Peer("", addr, port))
  {
  }

  // ---- mDNS ----

  /** A service entry: who advertises, and the addresses and port it gives. */
  datatype Entry = Entry(instance: string, ipv4: seq<string>, ipv6: seq<string>, port: int)

  /** What fastest holds after the addresses ips: the best address and its speed. */
  function Fastest(ips: seq<string>, mbps: string -> int): (string, int) {
    if ips == [] then ("", -1)
    else
      var best, a := Fastest(ips[..|ips| - 1], mbps), ips[|ips| - 1];
      if mbps(a) > best.1 then (a, mbps(a)) else best
  }

  method FastestAddr(ips: seq<string>, mbps: string -> int) returns (best: string)
    ensures best == Fastest(ips, mbps).0
  {
    var bestMbps := -1;
    best := "";
    for k := 0 to |ips|
      invariant (best, bestMbps) == Fastest(ips[..k], mbps)
    {
      assert ips[..k + 1][..k] == ips[..k];
      if mbps(ips[k]) > bestMbps {
        best, bestMbps := ips[k], mbps(ips[k]);
      }
    }
    assert ips[..|ips|] == ips;
  }

  /** The first of the addresses on the fastest link. */
  lemma {:induction false} FastestIsFirstBest(ips: seq<string>, mbps: string -> int) returns (i: nat)
    requires exists a :: a in ips && mbps(a) >= 0
    ensures i < |ips| && Fastest(ips, mbps) == (ips[i], mbps(ips[i]))
    ensures forall j :: 0 <= j < |ips| ==> mbps(ips[j]) <= mbps(ips[i])
    ensures forall j :: 0 <= j < i ==> mbps(ips[j]) < mbps(ips[i])
    decreases |ips|
  {
    var n := |ips| - 1;
    var init := ips[..n];
    if exists a :: a in init && mbps(a) >= 0 {
      i := FastestIsFirstBest(init, mbps);
      assert forall j :: 0 <= j < n ==> init[j] == ips[j];
      if mbps(ips[n]) > mbps(ips[i]) {
        i := n;
      }
    } else {
      NoneFast(init, mbps);
      assert forall j :: 0 <= j < n ==> ips[j] in init;
      i := n;
    }
  }

  lemma {:induction false} NoneFast(ips: seq<string>, mbps: string -> int)
    requires forall a :: a in ips ==> mbps(a) < 0
    ensures Fastest(ips, mbps) == ("", -1)
  {
    if ips != [] {
      NoneFast(ips[..|ips| - 1], mbps);
    }
  }

  /** pickAddr: IPv4 before IPv6. */
  function PickAddr(e: Entry, mbps: string -> int): string {
    var a := Fastest(e.ipv4, mbps).0;
    if a != "" then a else Fastest(e.ipv6, mbps).0
  }

  /** ips has an address worth picking. */
  predicate Reachable(ips: seq<string>, mbps: string -> int) {
    exists a :: a in ips && mbps(a) >= 0
  }

  /** The address recorded is an IPv4 one whenever the entry has one that can be
      reached, and only otherwise an IPv6 one, or none. */
  lemma PickAddrPrefersIPv4(e: Entry, mbps: string -> int)
    requires forall a :: a in e.ipv4 || a in e.ipv6 ==> a != ""
    ensures Reachable(e.ipv4, mbps) ==> PickAddr(e, mbps) in e.ipv4
    ensures !Reachable(e.ipv4, mbps) && Reachable(e.ipv6, mbps) ==> PickAddr(e, mbps) in e.ipv6
    ensures !Reachable(e.ipv4, mbps) && !Reachable(e.ipv6, mbps) ==> PickAddr(e, mbps) == ""
  {
    if Reachable(e.ipv4, mbps) {
      var i := FastestIsFirstBest(e.ipv4, mbps);
      assert e.ipv4[i] in e.ipv4;
    } else {
      NoneFast(e.ipv4, mbps);
      if Reachable(e.ipv6, mbps) {
        var i := FastestIsFirstBest(e.ipv6, mbps);
        assert e.ipv6[i] in e.ipv6;
      } else {
        NoneFast(e.ipv6, mbps);
      }
    }
  }

  predicate Named(ps: seq<Peer>, name: string) {
    exists p :: p in ps && p.name == name
  }

  /** The peers kept from the entries received so far; a nil entry is None. */
  function Browsed(entries: seq<Option<Entry>>, mbps: string -> int): seq<Peer> {
    if entries == [] then []
    else
      var init, e := Browsed(entries[..|entries| - 1], mbps), entries[|entries| - 1];
      if e.None? || Named(init, e.value.instance) || PickAddr(e.value, mbps) == "" then init
      else init + [Peer(e.value.instance, PickAddr(e.value, mbps), e.value.port)]
  }

  method Browse(entries: seq<Option<Entry>>, mbps: string -> int) returns (peers: seq<Peer>)
    ensures peers == Browsed(entries, mbps)
  {
    peers := [];
    var seen: set<string> := {};
    for k := 0 to |entries|
      invariant peers == Browsed(entries[..k], mbps)
      invariant forall n :: n in seen <==> Named(peers, n)
    {
      assert entries[..k + 1][..k] == entries[..k];
      var e := entries[k];
      if e.None? || e.value.instance in seen {
        continue;
      }
      var addr := FastestAddr(e.value.ipv4, mbps);
      if addr == "" {
        addr := FastestAddr(e.value.ipv6, mbps);
      }
      if addr == "" {
        continue;
      }
      ghost var before := peers;
      seen := seen + {e.value.instance};
      peers := peers + [Peer(e.value.instance, addr, e.value.port)];
      assert peers[|before|] in peers;
      forall n ensures Named(peers, n) <==> Named(before, n) || n == e.value.instance {
        if Named(before, n) {
          var p :| p in before && p.name == n;
          assert p in peers;
        }
      }
    }
    assert entries[..|entries|] == entries;
  }

  // ---- Nothing to dial has an empty address ----

  predicate Addressed(ps: seq<Peer>) {
    forall p :: p in ps ==> p.addr != ""
  }

  lemma {:induction false} ParsedAddressed(items: seq<string>)
    ensures Addressed(Parsed(items))
  {
    if items != [] {
      ParsedAddressed(items[..|items| - 1]);
    }
  }

  predicate DistinctNames(ps: seq<Peer>) {
    forall i, j :: 0 <= i < j < |ps| ==> ps[i].name != ps[j].name
  }

  /** Browse names each peer once and gives each an address. */
  lemma {:induction false} BrowsedAddressed(entries: seq<Option<Entry>>, mbps: string -> int)
    ensures Addressed(Browsed(entries, mbps)) && DistinctNames(Browsed(entries, mbps))
  {
    if entries != [] {
      var init, e := Browsed(entries[..|entries| - 1], mbps), entries[|entries| - 1];
      BrowsedAddressed(entries[..|entries| - 1], mbps);
      if e.Some? && !Named(init, e.value.instance) {
        var p := Peer(e.value.instance, PickAddr(e.value, mbps), e.value.port);
        forall i | 0 <= i < |init| ensures init[i].name != p.name {
          assert init[i] in init;
        }
        assert DistinctNames(init + [p]);
      }
    }
  }

  // ---- The first addressed entry of each instance ----

  /** Entry i gives an address, and no entry before it does so for its instance. */
  predicate FirstAddressed(entries: seq<Option<Entry>>, mbps: string -> int, i: nat)
    requires i < |entries|
  {
    && entries[i].Some? && PickAddr(entries[i].value, mbps) != ""
    && forall j :: 0 <= j < i && entries[j].Some? && entries[j].value.instance == entries[i].value.instance ==>
         PickAddr(entries[j].value, mbps) == ""
  }

  function PeerOf(e: Entry, mbps: string -> int): Peer {
    Peer(e.instance, PickAddr(e, mbps), e.port)
  }

  /** Every browsed peer is the first addressed entry of its instance. */
  lemma {:induction false} BrowsedIsFirst(entries: seq<Option<Entry>>, mbps: string -> int, p: Peer) returns (i: nat)
    requires p in Browsed(entries, mbps)
    ensures i < |entries| && FirstAddressed(entries, mbps, i) && p == PeerOf(entries[i].value, mbps)
  {
    var n := |entries| - 1;
    var init := entries[..n];
    if p in Browsed(init, mbps) {
      i := BrowsedIsFirst(init, mbps, p);
      assert forall j :: 0 <= j < n ==> init[j] == entries[j];
    } else {
      i := n;
      forall j | 0 <= j < n && entries[j].Some? && entries[j].value.instance == entries[n].value.instance
        ensures PickAddr(entries[j].value, mbps) == ""
      {
        if PickAddr(entries[j].value, mbps) != "" {
          AddressedIsNamed(init, mbps, j);
        }
      }
    }
  }

  lemma {:induction false} AddressedIsNamed(entries: seq<Option<Entry>>, mbps: string -> int, j: nat)
    requires j < |entries| && entries[j].Some? && PickAddr(entries[j].value, mbps) != ""
    ensures Named(Browsed(entries, mbps), entries[j].value.instance)
  {
    var n := |entries| - 1;
    var init, e := Browsed(entries[..n], mbps), entries[n];
    if j < n {
      AddressedIsNamed(entries[..n], mbps, j);
      var p :| p in init && p.name == entries[j].value.instance;
      assert p in Browsed(entries, mbps);
    } else if !Named(init, e.value.instance) {
      assert PeerOf(e.value, mbps) in Browsed(entries, mbps);
    }
  }

  /** And every instance with an addressed entry is listed, at the address and
      port of its first one. */
  lemma FirstIsBrowsed(entries: seq<Option<Entry>>, mbps: string -> int, i: nat)
    requires i < |entries| && FirstAddressed(entries, mbps, i)
    ensures PeerOf(entries[i].value, mbps) in Browsed(entries, mbps)
  {
    AddressedIsNamed(entries, mbps, i);
    var p :| p in Browsed(entries, mbps) && p.name == entries[i].value.instance;
    var k := BrowsedIsFirst(entries, mbps, p);
    assert k == i;
  }
}
