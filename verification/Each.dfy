/** `knit each`: per-machine line prefixing on a shared terminal, and the exit
    code of the fan-out. */
module Each {
  import opened Prelude
  import opened Frames
  import opened Lines

  /** The shared output: one entry per Fprintf call. */
  class Terminal {
    var calls: seq<bytes>

    constructor ()
      ensures calls == []
    {
      calls := [];
    }
  }

  function Prefixed(prefix: bytes, lines: seq<bytes>): seq<bytes> {
    if lines == [] then [] else [prefix + lines[0]] + Prefixed(prefix, lines[1..])
  }

  lemma {:induction false} PrefixedConcat(prefix: bytes, a: seq<bytes>, b: seq<bytes>)
    ensures Prefixed(prefix, a + b) == Prefixed(prefix, a) + Prefixed(prefix, b)
  {
    if a == [] {
      assert a + b == b;
    } else {
      assert (a + b)[1..] == a[1..] + b;
      PrefixedConcat(prefix, a[1..], b);
    }
  }

  /** What flush adds for a tail that never got its newline. */
  function Trailing(prefix: bytes, tail: bytes): seq<bytes> {
    if tail == [] then [] else [prefix + tail + [NEWLINE]]
  }

  /** The whole-text specification: every line prefixed, the last completed. */
  function Display(prefix: bytes, text: bytes): seq<bytes> {
    Prefixed(prefix, Split(text).lines) + Trailing(prefix, Split(text).tail)
  }

  /** What is left of the calls when each has lost the first n bytes. */
  function Stripped(calls: seq<bytes>, n: nat): bytes {
    if calls == [] then []
    else (if |calls[0]| >= n then calls[0][n..] else []) + Stripped(calls[1..], n)
  }

  lemma {:induction false} StrippedConcat(a: seq<bytes>, b: seq<bytes>, n: nat)
    ensures Stripped(a + b, n) == Stripped(a, n) + Stripped(b, n)
  {
    if a == [] {
      assert a + b == b;
    } else {
      assert (a + b)[1..] == a[1..] + b;
      StrippedConcat(a[1..], b, n);
    }
  }

  lemma {:induction false} StrippedLines(prefix: bytes, lines: seq<bytes>)
    ensures Stripped(Prefixed(prefix, lines), |prefix|) == Flatten(lines)
    ensures forall c :: c in Prefixed(prefix, lines) ==> prefix <= c
  {
    if lines != [] {
      assert (prefix + lines[0])[|prefix|..] == lines[0];
      StrippedLines(prefix, lines[1..]);
    }
  }

  /** Some text after its last newline, or a text without one. */
  predicate Unfinished(text: bytes) {
    text != [] && text[|text| - 1] != NEWLINE
  }

  /** The display shows the text and nothing else: every call starts with the
      prefix, and without the prefixes it is the text, given a final newline
      exactly when the text does not end with one. */
  lemma DisplayShowsText(prefix: bytes, text: bytes)
    ensures Stripped(Display(prefix, text), |prefix|) == if Unfinished(text) then text + [NEWLINE] else text
    ensures forall c :: c in Display(prefix, text) ==> prefix <= c
  {
    var cut := Split(text);
    SplitIsCut(text);
    StrippedLines(prefix, cut.lines);
    StrippedConcat(Prefixed(prefix, cut.lines), Trailing(prefix, cut.tail), |prefix|);
    var whole := Flatten(cut.lines);
    if cut.tail == [] {
      NothingAfter(whole, cut.tail);
      EndsInNewline(cut.lines);
    } else {
      StrippedTrailing(prefix, cut.tail);
      Assoc(whole, cut.tail, [NEWLINE]);
      TailShows(whole, cut.tail);
    }
  }

  lemma NothingAfter(a: bytes, none: bytes)
    requires none == []
    ensures a + none == a && a + Stripped([], 0) == a
  {
  }

  lemma TailShows(whole: bytes, tail: bytes)
    requires tail != [] && NEWLINE !in tail
    ensures Unfinished(whole + tail)
  {
    assert (whole + tail)[|whole + tail| - 1] == tail[|tail| - 1];
  }

  lemma StrippedOne(call: bytes, n: nat)
    requires |call| >= n
    ensures Stripped([call], n) == call[n..]
  {
    var none: seq<bytes> := [];
    assert [call][1..] == none && Stripped(none, n) == [];
  }

  lemma StrippedTrailing(prefix: bytes, tail: bytes)
    requires tail != []
    ensures Stripped(Trailing(prefix, tail), |prefix|) == tail + [NEWLINE]
    ensures forall c :: c in Trailing(prefix, tail) ==> prefix <= c
  {
    Assoc(prefix, tail, [NEWLINE]);
    var last := prefix + (tail + [NEWLINE]);
    StrippedOne(last, |prefix|);
    assert last[|prefix|..] == tail + [NEWLINE];
  }

  lemma {:induction false} EndsInNewline(lines: seq<bytes>)
    requires forall i :: 0 <= i < |lines| ==> IsLine(lines[i])
    ensures !Unfinished(Flatten(lines))
  {
    if lines != [] {
      EndsInNewline(lines[1..]);
      var rest := Flatten(lines[1..]);
      if rest != [] {
        assert Flatten(lines)[|Flatten(lines)| - 1] == rest[|rest| - 1];
      }
    }
  }

  method IndexByte(b: bytes, c: byte) returns (i: Option<nat>)
    ensures i.None? ==> c !in b
    ensures i.Some? ==> i.value < |b| && b[i.value] == c && c !in b[..i.value]
  {
    for k := 0 to |b|
      invariant c !in b[..k]
    {
      if b[k] == c {
        return Some(k);
      }
      assert b[..k + 1] == b[..k] + [b[k]];
    }
    assert b[..|b|] == b;
    return None;
  }

  class Prefixer {
    const out: Terminal
    const prefix: bytes
    var partial: bytes

    constructor (out: Terminal, prefix: bytes)
      ensures this.out == out && this.prefix == prefix && partial == []
    {
      this.out, this.prefix, partial := out, prefix, [];
    }

    /** One call per completed line; the rest is held back. */
    method Write(p: bytes)
      modifies this, out
      ensures out.calls == old(out.calls) + Prefixed(prefix, Extend(Cut([], old(partial)), p).lines)
      ensures partial == Extend(Cut([], old(partial)), p).tail
    {
      var b := p;
      ghost var lines: seq<bytes> := [];
      while true
        invariant out.calls == old(out.calls) + Prefixed(prefix, lines)
        invariant Extend(Cut(lines, partial), b) == Extend(Cut([], old(partial)), p)
        decreases |b|
      {
        var i := IndexByte(b, NEWLINE);
        if i.None? {
          ExtendPlain(Cut(lines, partial), b);
          partial := partial + b;
          return;
        }
        ExtendLine(Cut(lines, partial), b, i.value);
        var line := partial + b[..i.value + 1];
        PrefixedConcat(prefix, lines, [line]);
        out.calls := out.calls + [prefix + line];
        lines := lines + [line];
        partial := [];
        b := b[i.value + 1..];
      }
    }

    method Flush()
      modifies this, out
      ensures out.calls == old(out.calls) + Trailing(prefix, old(partial))
      ensures partial == []
    {
      if |partial| > 0 {
        out.calls := out.calls + [prefix + partial + [NEWLINE]];
        partial := [];
      }
    }

    /** A stream arriving in any chunks, then the deferred flush: the terminal
        gains exactly the display of the whole text. */
    method Stream(chunks: seq<bytes>)
      requires partial == []
      modifies this, out
      ensures out.calls == old(out.calls) + Display(prefix, Flatten(chunks))
      ensures partial == []
    {
      assert chunks[..0] == [];
      for k := 0 to |chunks|
        invariant out.calls == old(out.calls) + Prefixed(prefix, Split(Flatten(chunks[..k])).lines)
        invariant partial == Split(Flatten(chunks[..k])).tail
      {
        ghost var cut := Split(Flatten(chunks[..k]));
        MoreText(prefix, Flatten(chunks[..k]), chunks[k]);
        assert chunks[..k + 1] == chunks[..k] + [chunks[k]];
        FlattenSnoc(chunks[..k], chunks[k]);
        Write(chunks[k]);
      }
      assert chunks[..|chunks|] == chunks;
      Flush();
    }
  }

  /** Text that arrives after text adds its own lines only. */
  lemma MoreText(prefix: bytes, text: bytes, more: bytes)
    ensures var before, added := Split(text), Extend(Cut([], Split(text).tail), more);
            Split(text + more).tail == added.tail
            && Prefixed(prefix, Split(text + more).lines)
            == Prefixed(prefix, before.lines) + Prefixed(prefix, added.lines)
  {
    ExtendConcat(Cut([], []), text, more);
    ExtendShift(Split(text).lines, Split(text).tail, more);
    PrefixedConcat(prefix, Split(text).lines, Extend(Cut([], Split(text).tail), more).lines);
  }

  // ---- Many prefixers on one mutex ----

  /** A call made by one machine's prefixer. */
  datatype Call = Call(machine: nat, text: bytes)

  /** One lock-holding operation of a machine: a chunk, or its final flush. */
  datatype Op = Chunk(machine: nat, data: bytes) | Flushed(machine: nat)

  /** partials[i] is what machine i holds back. */
  datatype Shared = Shared(calls: seq<Call>, partials: seq<bytes>)

  function Stamp(machine: nat, texts: seq<bytes>): seq<Call> {
    if texts == [] then [] else [Call(machine, texts[0])] + Stamp(machine, texts[1..])
  }

  predicate Known(prefixes: seq<bytes>, op: Op) {
    op.machine < |prefixes|
  }

  function Perform(prefixes: seq<bytes>, s: Shared, op: Op): (t: Shared)
    requires Known(prefixes, op) && |s.partials| == |prefixes|
    ensures |t.partials| == |prefixes|
  {
    var i := op.machine;
    match op
    case Chunk(_, data) =>
      var cut := Extend(Cut([], s.partials[i]), data);
      Shared(s.calls + Stamp(i, Prefixed(prefixes[i], cut.lines)), s.partials[i := cut.tail])
    case Flushed(_) =>
      Shared(s.calls + Stamp(i, Trailing(prefixes[i], s.partials[i])), s.partials[i := []])
  }

  /** The shared output after a schedule of operations. */
  function After(prefixes: seq<bytes>, ops: seq<Op>): (t: Shared)
    requires forall k :: 0 <= k < |ops| ==> Known(prefixes, ops[k])
    ensures |t.partials| == |prefixes|
  {
    if ops == [] then Shared([], seq(|prefixes|, i => []))
    else Perform(prefixes, After(prefixes, ops[..|ops| - 1]), ops[|ops| - 1])
  }

  /** What one machine contributed, in order. */
  function Project(calls: seq<Call>, machine: nat): seq<bytes> {
    if calls == [] then []
    else (if calls[0].machine == machine then [calls[0].text] else []) + Project(calls[1..], machine)
  }

  /** The text one machine produced over a schedule. */
  function TextOf(ops: seq<Op>, machine: nat): bytes {
    if ops == [] then []
    else
      var op := ops[|ops| - 1];
      TextOf(ops[..|ops| - 1], machine) + (if op.machine == machine && op.Chunk? then op.data else [])
  }

  /** A machine's flush is deferred: it writes no more after it. */
  ghost predicate FlushLast(ops: seq<Op>, machine: nat) {
    forall j, k :: 0 <= j < k < |ops| && ops[j] == Flushed(machine) ==> ops[k].machine != machine
  }

  predicate HasFlushed(ops: seq<Op>, machine: nat) {
    Flushed(machine) in ops
  }

  lemma {:induction false} ProjectConcat(a: seq<Call>, b: seq<Call>, machine: nat)
    ensures Project(a + b, machine) == Project(a, machine) + Project(b, machine)
  {
    if a == [] {
      assert a + b == b;
    } else {
      assert (a + b)[1..] == a[1..] + b;
      ProjectConcat(a[1..], b, machine);
    }
  }

  lemma {:induction false} ProjectStamp(i: nat, texts: seq<bytes>, machine: nat)
    ensures Project(Stamp(i, texts), machine) == if i == machine then texts else []
  {
    if texts != [] {
      ProjectStamp(i, texts[1..], machine);
      assert [texts[0]] + texts[1..] == texts;
    }
  }

  ghost predicate InStep(prefixes: seq<bytes>, ops: seq<Op>, s: Shared, i: nat)
    requires i < |prefixes| && |s.partials| == |prefixes|
  {
    var text := TextOf(ops, i);
    if HasFlushed(ops, i) then s.partials[i] == [] && Project(s.calls, i) == Display(prefixes[i], text)
    else s.partials[i] == Split(text).tail && Project(s.calls, i) == Prefixed(prefixes[i], Split(text).lines)
  }

  /** Machine i's part of the shared output is at every moment the display of
      its own text so far, whatever the others do in between. */
  lemma {:induction false} EachMachineInStep(prefixes: seq<bytes>, ops: seq<Op>, i: nat)
    requires forall k :: 0 <= k < |ops| ==> Known(prefixes, ops[k])
    requires i < |prefixes| && FlushLast(ops, i)
    ensures InStep(prefixes, ops, After(prefixes, ops), i)
    decreases |ops|
  {
    if ops != [] {
      var init, op := ops[..|ops| - 1], ops[|ops| - 1];
      assert ops == init + [op];
      EachMachineInStep(prefixes, init, i);
      var s := After(prefixes, init);
      var j := op.machine;
      var added := if op.Chunk? then Prefixed(prefixes[j], Extend(Cut([], s.partials[j]), op.data).lines)
                   else Trailing(prefixes[j], s.partials[j]);
      ProjectConcat(s.calls, Stamp(j, added), i);
      ProjectStamp(j, added, i);
      assert HasFlushed(ops, i) <==> HasFlushed(init, i) || op == Flushed(i);
      if j != i {
        assert TextOf(init, i) + [] == TextOf(init, i);
        assert Project(s.calls, i) + [] == Project(s.calls, i);
      } else if op.Chunk? {
        MoreText(prefixes[i], TextOf(init, i), op.data);
        assert !HasFlushed(init, i);
      } else {
        assert TextOf(init, i) + [] == TextOf(init, i);
        assert !HasFlushed(init, i);
      }
    }
  }

  /** One whole line with its machine's prefix. */
  ghost predicate WholeLine(prefixes: seq<bytes>, c: Call) {
    c.machine < |prefixes| && exists l :: IsLine(l) && c.text == prefixes[c.machine] + l
  }

  ghost predicate HeldOk(s: Shared) {
    forall i :: 0 <= i < |s.partials| ==> NEWLINE !in s.partials[i]
  }

  /** The shared output is a sequence of whole lines: machines never mix within a line. */
  lemma {:induction false} OnlyWholeLines(prefixes: seq<bytes>, ops: seq<Op>)
    requires forall k :: 0 <= k < |ops| ==> Known(prefixes, ops[k])
    ensures HeldOk(After(prefixes, ops))
    ensures forall k :: 0 <= k < |After(prefixes, ops).calls| ==> WholeLine(prefixes, After(prefixes, ops).calls[k])
    decreases |ops|
  {
    if ops != [] {
      var init, op := ops[..|ops| - 1], ops[|ops| - 1];
      OnlyWholeLines(prefixes, init);
      var s, i := After(prefixes, init), op.machine;
      match op
      case Chunk(_, data) =>
        assert IsCutOf(Cut([], s.partials[i]), s.partials[i]) by { assert [] + s.partials[i] == s.partials[i]; }
        ExtendIsCut(Cut([], s.partials[i]), s.partials[i], data);
        StampLines(prefixes, i, Extend(Cut([], s.partials[i]), data).lines);
      case Flushed(_) =>
        if s.partials[i] != [] {
          var l := s.partials[i] + [NEWLINE];
          assert l[..|l| - 1] == s.partials[i];
          assert prefixes[i] + l == prefixes[i] + s.partials[i] + [NEWLINE];
          assert WholeLine(prefixes, Call(i, prefixes[i] + l));
          assert Stamp(i, [prefixes[i] + l]) == [Call(i, prefixes[i] + l)] + Stamp(i, []);
          assert After(prefixes, ops).calls == s.calls + [Call(i, prefixes[i] + l)];
        }
    }
  }

  lemma {:induction false} StampLines(prefixes: seq<bytes>, i: nat, lines: seq<bytes>)
    requires i < |prefixes| && forall k :: 0 <= k < |lines| ==> IsLine(lines[k])
    ensures forall c :: c in Stamp(i, Prefixed(prefixes[i], lines)) ==> WholeLine(prefixes, c)
  {
    if lines != [] {
      StampLines(prefixes, i, lines[1..]);
      assert WholeLine(prefixes, Call(i, prefixes[i] + lines[0]));
    }
  }

  // ---- The exit code ----

  /** The highest code, counting from 0. */
  ghost predicate IsWorst(codes: seq<int>, worst: int) {
    && worst >= 0 && (worst == 0 || worst in codes)
    && forall i :: 0 <= i < |codes| ==> codes[i] <= worst
  }

  method Worst(codes: seq<int>) returns (worst: int)
    ensures IsWorst(codes, worst)
  {
    worst := 0;
    for k := 0 to |codes|
      invariant worst >= 0 && (worst == 0 || worst in codes)
      invariant forall i :: 0 <= i < k ==> codes[i] <= worst
    {
      if codes[k] > worst {
        worst := codes[k];
      }
    }
  }

  predicate AllZero(codes: seq<int>) {
    forall i :: 0 <= i < |codes| ==> codes[i] == 0
  }

  /** The fan-out claims success although some machine failed exactly when no
      code is positive and one is negative; an exit frame can carry one. */
  lemma FalseSuccessIff(codes: seq<int>, worst: int)
    requires IsWorst(codes, worst)
    ensures worst == 0 && !AllZero(codes) <==>
              (exists i :: 0 <= i < |codes| && codes[i] < 0) && (forall i :: 0 <= i < |codes| ==> codes[i] <= 0)
    ensures ExitCode(ExitFrame(-1).payload) == -1
  {
    ExitCodeRoundTrip(-1);
    if worst in codes {
      var i :| 0 <= i < |codes| && codes[i] == worst;
    }
  }
}
