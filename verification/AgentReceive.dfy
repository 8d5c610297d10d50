/** The agent's receiving side: recvTree up to the end marker, then
    readClientFrames for the rest of the connection. */
module AgentReceive {
  import opened Prelude
  import opened Frames
  import opened FrameIO

  // ---- recvTree ----

  /** The tree stream and the bytes left for the next reader, or what was
      received before the connection was lost. */
  datatype TreeResult = Tree(tar: bytes, rest: bytes) | Lost(tar: bytes)

  function Prepend(p: bytes, r: TreeResult): TreeResult {
    if r.Tree? then Tree(p + r.tar, r.rest) else Lost(p + r.tar)
  }

  /** Unknown frame types are skipped without a trace. */
  function TreeOf(s: bytes): TreeResult
    decreases |s|
  {
    match ReadFrame(s)
    case Got(f, rest) =>
      if f.kind == IN_TAR then Prepend(f.payload, TreeOf(rest))
      else if f.kind == IN_END then Tree([], rest)
      else TreeOf(rest)
    case _ => Lost([])
  }

  /** The loop of recvTree, for an unpacking that reads all it is given. */
  method RecvTree(src: Source) returns (ok: bool, tar: bytes)
    modifies src
    ensures match TreeOf(old(src.unread))
            case Tree(t, rest) => ok && tar == t && src.unread == rest
            case Lost(t) => !ok && tar == t
  {
    tar := [];
    while true
      invariant Prepend(tar, TreeOf(src.unread)) == TreeOf(old(src.unread))
      decreases |src.unread|
    {
      ghost var before := TreeOf(src.unread);
      var got := src.ReadFrame();
      if got.None? {
        assert tar + [] == tar;
        return false, tar;
      }
      if got.value.kind == IN_TAR {
        assert tar + (got.value.payload + TreeOf(src.unread).tar) == tar + got.value.payload + TreeOf(src.unread).tar;
        tar := tar + got.value.payload;
      } else if got.value.kind == IN_END {
        assert tar + [] == tar;
        return true, tar;
      }
    }
  }

  // ---- readClientFrames ----

  /** What the loop offered to the process: the bytes written to its stdin,
      whether its stdin was closed, and the signals sent to its group. */
  datatype Fed = Fed(stdin: bytes, eof: bool, signals: bytes)

  function Feed(v: Fed, f: Frame): Fed {
    if f.kind == STDIN then (if v.eof then v else v.(stdin := v.stdin + f.payload))
    else if f.kind == STDIN_EOF then v.(eof := true)
    else if f.kind == SIGNAL && f.payload != [] then v.(signals := v.signals + [f.payload[0]])
    else v
  }

  function FedBy(fs: seq<Frame>): Fed {
    if fs == [] then Fed([], false, []) else Feed(FedBy(fs[..|fs| - 1]), fs[|fs| - 1])
  }

  lemma FedSnoc(fs: seq<Frame>, f: Frame)
    ensures FedBy(fs + [f]) == Feed(FedBy(fs), f)
  {
    assert (fs + [f])[..|fs|] == fs;
  }

  /** Receiving more only adds, and adds no stdin after the end of stdin. */
  lemma {:induction false} FedPrefix(fs: seq<Frame>, k: nat)
    requires k <= |fs|
    ensures FedBy(fs[..k]).stdin <= FedBy(fs).stdin
    ensures FedBy(fs[..k]).signals <= FedBy(fs).signals
    ensures FedBy(fs[..k]).eof ==> FedBy(fs).eof && FedBy(fs[..k]).stdin == FedBy(fs).stdin
    decreases |fs| - k
  {
    if k < |fs| {
      assert fs[..k + 1] == fs[..k] + [fs[k]];
      FedSnoc(fs[..k], fs[k]);
      FedPrefix(fs, k + 1);
    } else {
      assert fs[..k] == fs;
    }
  }

  predicate Ends(fs: seq<Frame>) {
    exists i :: 0 <= i < |fs| && fs[i].kind == 11
  }

  /** What frames 10 and 11 mean: stdin is every stdin payload up to the first
      end-of-stdin frame, whatever comes after it. */
  lemma {:induction false} StdinIsPayloads(fs: seq<Frame>)
    ensures FedBy(fs).eof <==> Ends(fs)
    ensures !Ends(fs) ==> FedBy(fs).stdin == Payloads(fs, 10)
    ensures forall k :: 0 <= k < |fs| && fs[k].kind == 11 && !Ends(fs[..k]) ==>
              FedBy(fs).stdin == Payloads(fs[..k], 10)
  {
    if fs != [] {
      var n := |fs| - 1;
      var init := fs[..n];
      StdinIsPayloads(init);
      assert Ends(fs) <==> Ends(init) || fs[n].kind == 11 by {
        assert forall i :: 0 <= i < n ==> init[i] == fs[i];
      }
      forall k | 0 <= k < |fs| && fs[k].kind == 11 && !Ends(fs[..k])
        ensures FedBy(fs).stdin == Payloads(fs[..k], 10)
      {
        if k < n {
          assert init[k] == fs[k] && init[..k] == fs[..k];
        }
      }
    }
  }

  /** The signal numbers: the first byte of every signal frame that has one. */
  lemma {:induction false} SignalsAreFirstBytes(fs: seq<Frame>) returns (at: seq<nat>)
    ensures |at| == |FedBy(fs).signals|
    ensures forall j :: 0 <= j < |at| ==>
              at[j] < |fs| && fs[at[j]].kind == 12 && [FedBy(fs).signals[j]] <= fs[at[j]].payload
    ensures forall i, j :: 0 <= i < j < |at| ==> at[i] < at[j]
    ensures forall i :: 0 <= i < |fs| && fs[i].kind == 12 && fs[i].payload != [] ==> i in at
  {
    if fs == [] {
      at := [];
    } else {
      var n := |fs| - 1;
      var init := fs[..n];
      at := SignalsAreFirstBytes(init);
      assert forall i :: 0 <= i < n ==> init[i] == fs[i];
      if fs[n].kind == 12 && fs[n].payload != [] {
        at := at + [n];
      }
    }
  }

  method ReadClientFrames(src: Source) returns (fed: Fed)
    modifies src
    ensures fed == FedBy(ReadAll(old(src.unread)).frames)
  {
    var stdin: bytes, open, signals: bytes := [], true, [];
    ghost var done: seq<Frame> := [];
    while true
      invariant FedBy(done) == Fed(stdin, !open, signals)
      invariant done + ReadAll(src.unread).frames == ReadAll(old(src.unread)).frames
      decreases |src.unread|
    {
      var got := src.ReadFrame();
      if got.None? {
        assert done + [] == done;
        return Fed(stdin, !open, signals);
      }
      var f := got.value;
      assert done + ([f] + ReadAll(src.unread).frames) == (done + [f]) + ReadAll(src.unread).frames;
      FedSnoc(done, f);
      ghost var before := FedBy(done);
      done := done + [f];
      assert FedBy(done) == Feed(before, f) && before == Fed(stdin, !open, signals);
      if f.kind == STDIN {
        if open {
          stdin := stdin + f.payload;
        }
      } else if f.kind == STDIN_EOF {
        open := false;
      } else if f.kind == SIGNAL {
        if |f.payload| > 0 {
          signals := signals + [f.payload[0]];
        }
      }
    }
  }

  // ---- recvTree in terms of the frames on the stream ----

  predicate AllTars(fs: seq<Frame>) {
    forall i :: 0 <= i < |fs| ==> fs[i].kind == IN_TAR
  }

  /** The concatenated payloads. */
  function Contents(fs: seq<Frame>): bytes {
    if fs == [] then [] else fs[0].payload + Contents(fs[1..])
  }

  /** A stream that has its n tar frames and the end marker: recvTree returns
      their contents, and the next reader finds exactly the frames after it. */
  lemma {:induction false} TreeComplete(s: bytes, n: nat)
    requires n < |ReadAll(s).frames| && AllTars(ReadAll(s).frames[..n])
    requires ReadAll(s).frames[n].kind == IN_END
    ensures TreeOf(s).Tree? && TreeOf(s).tar == Contents(ReadAll(s).frames[..n])
    ensures ReadAll(TreeOf(s).rest).frames == ReadAll(s).frames[n + 1..]
    decreases n
  {
    var fs := ReadAll(s).frames;
    var rest := ReadFrame(s).rest;
    assert fs == [ReadFrame(s).frame] + ReadAll(rest).frames;
    if n > 0 {
      assert fs[..n][1..] == ReadAll(rest).frames[..n - 1];
      assert AllTars(ReadAll(rest).frames[..n - 1]) by {
        forall i | 0 <= i < n - 1 ensures ReadAll(rest).frames[i].kind == IN_TAR {
          assert fs[..n][i + 1].kind == IN_TAR;
        }
      }
      assert fs[0].kind == IN_TAR by { assert fs[..n][0].kind == IN_TAR; }
      TreeComplete(rest, n - 1);
      assert fs[n + 1..] == ReadAll(rest).frames[n..];
    }
  }

  /** A stream of tar frames cut before the marker: recvTree fails with them. */
  lemma {:induction false} TreeCut(s: bytes)
    requires AllTars(ReadAll(s).frames)
    ensures TreeOf(s) == Lost(Contents(ReadAll(s).frames))
    decreases |s|
  {
    if ReadFrame(s).Got? {
      var fs, rest := ReadAll(s).frames, ReadFrame(s).rest;
      assert fs == [ReadFrame(s).frame] + ReadAll(rest).frames;
      assert AllTars(ReadAll(rest).frames) by {
        forall i | 0 <= i < |ReadAll(rest).frames| ensures ReadAll(rest).frames[i].kind == IN_TAR {
          assert fs[i + 1].kind == IN_TAR;
        }
      }
      TreeCut(rest);
      assert fs[0].kind == IN_TAR && fs[1..] == ReadAll(rest).frames;
    }
  }
}
