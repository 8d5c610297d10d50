/** A command's own exit status reaches the client, whatever it is; so 124 is
    both a command's status and the client's word for a lost connection. */
module Status124 {
  import opened Prelude
  import opened Frames
  import opened SharedLink
  import opened AgentRun
  import opened KillOnce
  import opened ClientLoop

  /** The waiter writes its exit frame and the connection takes all of it. */
  lemma ExitWritten(s0: State, es: seq<Event>, s: State) returns (es': seq<Event>, s': State)
    requires Reaches(s0, es, s) && s.main.Exiting? && s.link == NewLink()
    ensures Reaches(s0, es', s') && s'.main.Returned? && s'.link.wire == Encode(ExitFrame(s.code))
  {
    es', s' := Take(s0, es, s, MainBegins);
    es', s' := Accepted(s0, es', s', Encode(ExitFrame(s.code)));
    es', s' := Take(s0, es', s', MainWrote);
  }

  lemma Accepted(s0: State, es: seq<Event>, s: State, b: bytes) returns (es': seq<Event>, s': State)
    requires Reaches(s0, es, s) && s.link.pending == b != [] && s.link.wire == [] && !s.link.broken
    ensures Reaches(s0, es', s') && s' == s.(link := s.link.(wire := b, pending := []))
  {
    es', s' := Take(s0, es, s, Accept(|b|));
    assert [] + b[..|b|] == b && b[|b|..] == [];
  }

  lemma OneExitFrame(code: int)
    requires -TWO31 <= code < TWO31
    ensures ViewOf(Encode(ExitFrame(code))).code == Some(code)
  {
    var f := ExitFrame(code);
    ReadAllEncoded([f]);
    assert EncodeAll([f]) == Encode(f) + EncodeAll([]) == Encode(f);
    assert [f][..0] == [];
    assert Seen([f]) == Absorb(Seen([]), f);
    ExitCodeRoundTrip(code);
  }

  /** For every way a process can end there is a run in which it does so and the
      client returns its status from the exit frame. */
  lemma EveryStatusDelivered(how: WaitResult) returns (es: seq<Event>, t: State)
    ensures Reaches(Started(false, 1, []), es, t) && t.main.Returned?
    ensures ViewOf(t.link.wire).code == Some(ExitStatus(how))
  {
    es, t := SilentRunEnds(how);
    es, t := ExitWritten(Started(false, 1, []), es, t);
    OneExitFrame(ExitStatus(how));
  }

  lemma SilentRunEnds(how: WaitResult) returns (es: seq<Event>, t: State)
    ensures Reaches(Started(false, 1, []), es, t) && t.main.Exiting? && t.code == ExitStatus(how) && t.link == NewLink()
  {
    var s0 := Started(false, 1, []);
    assert Reaches(s0, [], s0);
    es, t := SilentSideEnds(s0, [], s0, Out);
    es, t := SilentSideEnds(s0, es, t, Err);
    es, t := WaiterEnds(s0, es, t, how);
  }

  /** A command that exits with 124, heard in full, and a connection that delivers
      nothing make the client return the same code. */
  lemma Status124IsAmbiguous() returns (es: seq<Event>, t: State)
    ensures Reaches(Started(false, 1, []), es, t)
    ensures ViewOf(t.link.wire).code == Some(124) && ViewOf([]).code == None
    ensures Outcome(ViewOf(t.link.wire)) == Outcome(ViewOf([])) == EXIT_DISCONNECTED
  {
    es, t := EveryStatusDelivered(Exited(124));
    ReadAllEncoded([]);
  }
}
