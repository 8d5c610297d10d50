/** A peer's stream under `knit each`, the codes it collects when both ends are
    knit, and what its own exit code then says. */
module EachCodes {
  import opened Prelude
  import opened Frames
  import opened FrameIO
  import opened AgentRun
  import Delivery
  import opened ClientLoop
  import opened ClientSees
  import RunFlow
  import opened Lines
  import Each

  // ---- One peer's stream ----

  /** What a prefixer has shown, and holds back, of text since it showed before. */
  ghost predicate Shown(p: Each.Prefixer, before: seq<bytes>, text: bytes)
    reads p, p.out
  {
    p.out.calls == before + Each.Prefixed(p.prefix, Split(text).lines) && p.partial == Split(text).tail
  }

  method Show(p: Each.Prefixer, data: bytes, ghost before: seq<bytes>, ghost text: bytes)
    requires Shown(p, before, text)
    modifies p, p.out
    ensures Shown(p, before, text + data)
  {
    Each.MoreText(p.prefix, text, data);
    p.Write(data);
  }

  /** eachOne's loop and its deferred flushes, on a connection that yields the bytes
      of src: the code of the view, and both of its texts prefixed line by line. */
  method EachOne(src: Source, out: Each.Prefixer, errs: Each.Prefixer) returns (code: int)
    requires out != errs && out.out != errs.out && out.partial == [] && errs.partial == []
    modifies src, out, out.out, errs, errs.out
    ensures code == Outcome(ViewOf(old(src.unread)))
    ensures out.out.calls == old(out.out.calls) + Each.Display(out.prefix, ViewOf(old(src.unread)).stdout)
    ensures errs.out.calls == old(errs.out.calls) + Each.Display(errs.prefix, ViewOf(old(src.unread)).stderr)
  {
    ghost var view;
    code, view := EachFrames(src, out, errs);
    out.Flush();
    errs.Flush();
  }

  /** One frame, after the view v. */
  method Route(f: Frame, out: Each.Prefixer, errs: Each.Prefixer,
               ghost outBefore: seq<bytes>, ghost errBefore: seq<bytes>, ghost v: View)
    requires out != errs && out.out != errs.out && v.code.None?
    requires Shown(out, outBefore, v.stdout) && Shown(errs, errBefore, v.stderr)
    modifies out, out.out, errs, errs.out
    ensures Shown(out, outBefore, Absorb(v, f).stdout) && Shown(errs, errBefore, Absorb(v, f).stderr)
  {
    if f.kind == STDOUT {
      Show(out, f.payload, outBefore, v.stdout);
    } else if f.kind == STDERR {
      Show(errs, f.payload, errBefore, v.stderr);
    }
  }

  method EachFrames(src: Source, out: Each.Prefixer, errs: Each.Prefixer) returns (code: int, ghost view: View)
    requires out != errs && out.out != errs.out && out.partial == [] && errs.partial == []
    modifies src, out, out.out, errs, errs.out
    ensures view == ViewOf(old(src.unread)) && code == Outcome(view)
    ensures Shown(out, old(out.out.calls), view.stdout) && Shown(errs, old(errs.out.calls), view.stderr)
  {
    ghost var outBefore, errBefore := out.out.calls, errs.out.calls;
    ghost var done: seq<Frame> := [];
    while true
      invariant Seen(done).code.None?
      invariant done + ReadAll(src.unread).frames == ReadAll(old(src.unread)).frames
      invariant Shown(out, outBefore, Seen(done).stdout) && Shown(errs, errBefore, Seen(done).stderr)
      decreases |src.unread|
    {
      var got := src.ReadFrame();
      if got.None? {
        assert done + [] == done;
        return EXIT_DISCONNECTED, Seen(done);
      }
      var f := got.value;
      ghost var v, rest := Seen(done), ReadAll(src.unread).frames;
      assert done + ([f] + rest) == (done + [f]) + rest;
      SeenSnoc(done, f);
      done := done + [f];
      Route(f, out, errs, outBefore, errBefore, v);
      if f.kind == EXIT {
        SeenStays(done, rest);
        return ExitCode(f.payload), Seen(done);
      }
    }
  }

  // ---- All of them ----

  /** One machine's part: this one's process, a peer no session could be opened
      to, or a run on a peer of which the client received the bytes cut. */
  datatype Part =
    | Here(how: WaitResult)
    | NotOpened(error: RunFlow.OpenError)
    | Remote(cap: nat, inbox: bytes, es: seq<Event>, t: State, cut: bytes)

  ghost predicate Possible(m: Part) {
    m.Remote? ==> Reaches(Started(false, m.cap, m.inbox), m.es, m.t) && m.cut <= m.t.link.wire
  }

  function CodeOf(m: Part): int {
    match m
    case Here(how) => ExitStatus(how)
    case NotOpened(error) => RunFlow.OpenCode(error)
    case Remote(_, _, _, _, cut) => Outcome(ViewOf(cut))
  }

  /** A peer's code is the status its process ended with, or 124. */
  lemma RemoteCode(m: Part)
    requires Possible(m) && m.Remote?
    ensures CodeOf(m) == EXIT_DISCONNECTED
         || (m.t.proc.ended.Some? && CodeOf(m) == ExitStatus(m.t.proc.ended.value))
  {
    var start := Started(false, m.cap, m.inbox);
    Delivery.StartInv(start);
    CodeRun(start, start, m.es, m.t);
    OwnStatus(start, m.es, m.t, m.cut);
    ExitIsUnambiguous(start, m.es, m.t, m.cut);
  }

  lemma NeverNegative(m: Part)
    requires Possible(m)
    ensures CodeOf(m) >= 0
  {
    if m.Remote? {
      RemoteCode(m);
    }
  }

  /** Between knit's own two halves the fan-out returns 0 if and only if every
      machine's code is 0, and otherwise the highest of them. */
  lemma ZeroIffAllZero(parts: seq<Part>, codes: seq<int>, worst: int)
    requires forall i :: 0 <= i < |parts| ==> Possible(parts[i])
    requires |codes| == |parts| && forall i :: 0 <= i < |parts| ==> codes[i] == CodeOf(parts[i])
    requires Each.IsWorst(codes, worst)
    ensures worst == 0 <==> Each.AllZero(codes)
    ensures codes != [] ==> worst in codes
  {
    forall i | 0 <= i < |codes| ensures codes[i] >= 0 {
      NeverNegative(parts[i]);
    }
    if codes != [] && worst == 0 {
      assert codes[0] == 0;
    }
  }
}
