/** Runs that mirror a tree back: for every tree there is one, heard to its end. */
module MirrorRun {
  import opened Prelude
  import opened Frames
  import opened SharedLink
  import opened AgentRun
  import opened KillOnce
  import opened ClientLoop
  import opened Status124
  import Delivery
  import ClientSees
  import History

  /** The waiter's frame f is written and accepted in full. */
  function Sent(s: State, f: Frame): State
    requires MainWrites(s.main) && Fits(f)
  {
    s.(main := MainNext(s.main),
       link := s.link.(frames := s.link.frames + [f], wire := s.link.wire + Encode(f)))
  }

  /** No write is under way and the connection is up. */
  predicate Calm(s: State) {
    s.link.holder.Free? && s.link.pending == [] && !s.link.broken
  }

  lemma MainSends(s0: State, es: seq<Event>, s: State) returns (es': seq<Event>, s': State)
    requires Reaches(s0, es, s) && Calm(s) && MainWrites(s.main) && Fits(MainFrame(s))
    ensures Reaches(s0, es', s') && s' == Sent(s, MainFrame(s)) && Calm(s') && es <= es'
  {
    var f := MainFrame(s);
    es', s' := Take(s0, es, s, MainBegins);
    es', s' := AcceptsAll(s0, es', s');
    es', s' := Take(s0, es', s', MainWrote);
  }

  lemma AcceptsAll(s0: State, es: seq<Event>, s: State) returns (es': seq<Event>, s': State)
    requires Reaches(s0, es, s) && s.link.pending != [] && !s.link.broken
    ensures Reaches(s0, es', s') && es <= es'
    ensures s' == s.(link := s.link.(wire := s.link.wire + s.link.pending, pending := []))
  {
    var b := s.link.pending;
    es', s' := Take(s0, es, s, Accept(|b|));
    assert b[..|b|] == b && b[|b|..] == [];
  }

  /** The frames a tree is sent as. */
  function TreeFrames(chunks: seq<bytes>): seq<Frame> {
    if chunks == [] then [Frame(OUT_END, [])] else [Frame(OUT_TAR, chunks[0])] + TreeFrames(chunks[1..])
  }

  /** The whole tree goes out, then its end. */
  lemma {:induction false} TreeSent(s0: State, es: seq<Event>, s: State) returns (es': seq<Event>, s': State)
    requires Reaches(s0, es, s) && Calm(s) && s.main.Mirroring? && Chunks(s.main.chunks)
    ensures Reaches(s0, es', s') && Calm(s') && s'.main.Exiting? && s'.code == s.code && es <= es'
    ensures s'.link.frames == s.link.frames + TreeFrames(s.main.chunks)
    decreases |s.main.chunks|
  {
    var f := MainFrame(s);
    es', s' := MainSends(s0, es, s);
    if s.main.chunks != [] {
      es', s' := TreeSent(s0, es', s');
      Assoc(s.link.frames, [f], TreeFrames(s.main.chunks[1..]));
    }
  }

  lemma ExitHeard(start: State, es: seq<Event>, t: State)
    requires IsStart(start) && Reaches(start, es, t) && Calm(t) && t.main.Returned?
    requires -TWO31 <= t.code < TWO31
    ensures ViewOf(t.link.wire).code == Some(t.code)
  {
    Delivery.StartInv(start);
    Delivery.RunInv(start, es, t);
    Delivery.Parts(Delivery.CoreOf(t));
    assert t.link.wire == EncodeAll(t.link.frames);
    ClientSees.ExitIsUnambiguous(start, es, t, t.link.wire);
  }

  /** For every tree in chunks and every way the process can end there is a run
      whose waiter finishes with that tree and whose client applies it, if it has
      any content, before it returns the status. */
  lemma EveryTreeDelivered(chunks: seq<bytes>, how: WaitResult) returns (es: seq<Event>, t: State)
    requires Chunks(chunks)
    ensures Reaches(Started(true, 1, []), es, t) && Finish(Some(chunks)) in es
    ensures ViewOf(t.link.wire).code == Some(ExitStatus(how))
    ensures ViewOf(t.link.wire).applied == if Flatten(chunks) != [] then [Flatten(chunks)] else []
  {
    es, t := TreeRun(chunks, how);
    ExitHeard(Started(true, 1, []), es, t);
    History.RunDelivers(true, 1, [], es, t, t.link.wire);
    History.OneFinish(Started(true, 1, []), es, t);
  }

  lemma TreeRun(chunks: seq<bytes>, how: WaitResult) returns (es: seq<Event>, t: State)
    requires Chunks(chunks)
    ensures Reaches(Started(true, 1, []), es, t) && Finish(Some(chunks)) in es
    ensures Calm(t) && t.main.Returned? && t.code == ExitStatus(how)
  {
    var s0 := Started(true, 1, []);
    es, t := ReapedRun(how);
    es, t := Take(s0, es, t, Finish(Some(chunks)));
    assert es[|es| - 1] == Finish(Some(chunks));
    var closed := es;
    es, t := TreeSent(s0, es, t);
    es, t := MainSends(s0, es, t);
    assert closed <= es && es[|closed| - 1] == closed[|closed| - 1];
  }

  lemma ReapedRun(how: WaitResult) returns (es: seq<Event>, t: State)
    ensures Reaches(Started(true, 1, []), es, t) && t.main.Reaped? && t.link == NewLink() && t.sync
    ensures t.code == ExitStatus(how)
  {
    var s0 := Started(true, 1, []);
    assert Reaches(s0, [], s0);
    es, t := SilentSideEnds(s0, [], s0, Out);
    es, t := SilentSideEnds(s0, es, t, Err);
    es, t := WaiterReaps(s0, es, t, how);
  }
}
