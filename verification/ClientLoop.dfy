/** The client's frame read loop: it demultiplexes stdout, stderr, mirrored trees
    and the exit code, and reports a lost connection as 124. */
module ClientLoop {
  import opened Prelude
  import opened Frames
  import opened FrameIO

  const EXIT_DISCONNECTED: int := 124

  /** tar      the mirrored tree being received, if its end has not arrived
      applied  the tar streams whose unpacking has been waited for
      code     the exit code, once its frame was read */
  datatype View = View(stdout: bytes, stderr: bytes, tar: Option<bytes>, applied: seq<bytes>, code: Option<int>)

  const BLANK := View([], [], None, [], None)

  /** One frame handled; nothing is read after the exit frame. */
  function Absorb(v: View, f: Frame): View {
    if v.code.Some? then v
    else if f.kind == STDOUT then v.(stdout := v.stdout + f.payload)
    else if f.kind == STDERR then v.(stderr := v.stderr + f.payload)
    else if f.kind == OUT_TAR then
      v.(tar := Some((if v.tar.Some? then v.tar.value else []) + f.payload))
    else if f.kind == OUT_END then
      if v.tar.Some? then v.(tar := None, applied := v.applied + [v.tar.value]) else v
    else if f.kind == EXIT then v.(code := Some(ExitCode(f.payload)))
    else v
  }

  /** The view after a sequence of frames. */
  function Seen(fs: seq<Frame>): View {
    if fs == [] then BLANK else Absorb(Seen(fs[..|fs| - 1]), fs[|fs| - 1])
  }

  lemma SeenSnoc(fs: seq<Frame>, f: Frame)
    ensures Seen(fs + [f]) == Absorb(Seen(fs), f)
  {
    assert (fs + [f])[..|fs|] == fs;
  }

  lemma {:induction false} SeenStays(fs: seq<Frame>, more: seq<Frame>)
    requires Seen(fs).code.Some?
    ensures Seen(fs + more) == Seen(fs)
    decreases |more|
  {
    if more == [] {
      assert fs + more == fs;
    } else {
      var init := more[..|more| - 1];
      assert fs + more == (fs + init) + [more[|more| - 1]];
      SeenStays(fs, init);
      SeenSnoc(fs + init, more[|more| - 1]);
    }
  }

  /** The view after the bytes s and then a read error. */
  function ViewOf(s: bytes): View {
    Seen(ReadAll(s).frames)
  }

  /** What streamOver returns. */
  function Outcome(v: View): int {
    if v.code.Some? then v.code.value else EXIT_DISCONNECTED
  }

  /** The loop of streamOver on a connection that yields the bytes of src and
      then fails. */
  method StreamOver(src: Source) returns (code: int, seen: View)
    modifies src
    ensures seen == ViewOf(old(src.unread)) && code == Outcome(seen)
  {
    var stdout: bytes, stderr: bytes, syncPw: Option<bytes>, applied: seq<bytes> := [], [], None, [];
    ghost var done: seq<Frame> := [];
    while true
      invariant Seen(done) == View(stdout, stderr, syncPw, applied, None)
      invariant done + ReadAll(src.unread).frames == ReadAll(old(src.unread)).frames
      decreases |src.unread|
    {
      label turn:
      var got := src.ReadFrame();
      if got.None? {
        assert done + [] == done;
        return EXIT_DISCONNECTED, View(stdout, stderr, syncPw, applied, None);
      }
      var f := got.value;
      ghost var rest := ReadAll(src.unread).frames;
      assert done + ([f] + rest) == (done + [f]) + rest;
      SeenSnoc(done, f);
      done := done + [f];
      if f.kind == STDOUT {
        stdout := stdout + f.payload;
      } else if f.kind == STDERR {
        stderr := stderr + f.payload;
      } else if f.kind == OUT_TAR {
        if syncPw.None? {
          syncPw := Some([]);
        }
        syncPw := Some(syncPw.value + f.payload);
      } else if f.kind == OUT_END {
        if syncPw.Some? {
          applied := applied + [syncPw.value];
          syncPw := None;
        }
      } else if f.kind == EXIT {
        SeenStays(done, rest);
        code := ExitCode(f.payload);
        return code, View(stdout, stderr, syncPw, applied, Some(code));
      }
    }
  }
}
