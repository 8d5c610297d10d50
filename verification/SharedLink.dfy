/** One frame writer shared by several goroutines: a mutex, and a connection that
    accepts bytes a few at a time and may fail for good at any byte. */
module SharedLink {
  import opened Frames

  datatype Holder<W> = Free | Held(owner: W)

  /** frames  every frame whose write has begun, in lock order
      pending the bytes of the current frame not yet accepted by the connection
      wire    every byte the connection ever accepted
      broken  the connection failed; it accepts nothing from now on */
  datatype Link<W> = Link(
    frames: seq<Frame>, holder: Holder<W>, pending: bytes, wire: bytes, broken: bool)

  function NewLink<W>(): Link<W> {
    Link([], Free, [], [], false)
  }

  predicate CanBegin<W>(l: Link<W>, f: Frame) {
    l.holder.Free? && !l.broken && Fits(f)
  }

  /** Lock the mutex and start writing f. */
  function Begin<W>(l: Link<W>, w: W, f: Frame): Link<W>
    requires CanBegin(l, f)
  {
    Link(l.frames + [f], Held(w), Encode(f), l.wire, false)
  }

  predicate CanPush<W>(l: Link<W>, k: nat) {
    !l.broken && 0 < k <= |l.pending|
  }

  /** The connection accepts k more bytes of the current frame. */
  function Push<W>(l: Link<W>, k: nat): Link<W>
    requires CanPush(l, k)
  {
    l.(wire := l.wire + l.pending[..k], pending := l.pending[k..])
  }

  function Sever<W>(l: Link<W>): Link<W> {
    l.(broken := true)
  }

  /** The holder's write returns nil: every byte was accepted. */
  predicate Written<W(==)>(l: Link<W>, w: W) {
    l.holder == Held(w) && l.pending == []
  }

  /** The holder's write returns an error part-way. */
  predicate CutOff<W(==)>(l: Link<W>, w: W) {
    l.holder == Held(w) && l.broken && l.pending != []
  }

  /** A write that finds the lock free and the connection dead fails at once. */
  predicate Refuses<W>(l: Link<W>) {
    l.holder.Free? && l.broken
  }

  function Unlock<W>(l: Link<W>): Link<W> {
    l.(holder := Free, pending := [])
  }

  ghost predicate LinkOk<W>(l: Link<W>) {
    && AllFit(l.frames)
    && (l.holder.Free? ==> l.pending == [])
    && l.wire <= EncodeAll(l.frames)
    && (!l.broken ==> l.wire + l.pending == EncodeAll(l.frames))
  }

  lemma BeginOk<W>(l: Link<W>, w: W, f: Frame)
    requires LinkOk(l) && CanBegin(l, f)
    ensures LinkOk(Begin(l, w, f))
  {
    EncodeAllSnoc(l.frames, f);
    assert l.wire + [] == l.wire;
  }

  lemma PushOk<W>(l: Link<W>, k: nat)
    requires LinkOk(l) && CanPush(l, k)
    ensures LinkOk(Push(l, k))
  {
    var m := Push(l, k);
    assert l.pending == l.pending[..k] + m.pending;
    assert l.wire + l.pending == m.wire + m.pending;
  }

  lemma UnlockOk<W>(l: Link<W>, w: W)
    requires LinkOk(l) && (Written(l, w) || CutOff(l, w))
    ensures LinkOk(Unlock(l))
  {
  }

  /** Whatever prefix of the wire the far end receives, it decodes exactly the
      frames that arrived whole. */
  lemma FarEnd<W>(l: Link<W>, cut: bytes)
    requires LinkOk(l) && cut <= l.wire
    ensures ReadAll(cut).frames == Whole(l.frames, |cut|)
    ensures ReadAll(cut).end == Short
    ensures ReadAll(cut).frames <= l.frames
  {
    assert cut <= EncodeAll(l.frames) by {
      assert cut == l.wire[..|cut|];
    }
    ReadPrefix(l.frames, cut);
  }

  /** All frames are decoded only if all their bytes were accepted and received. */
  lemma FarEndAll<W>(l: Link<W>, cut: bytes)
    requires LinkOk(l) && cut <= l.wire && ReadAll(cut).frames == l.frames
    ensures cut == l.wire == EncodeAll(l.frames)
  {
    FarEnd(l, cut);
    WholeIff(l.frames, |cut|);
  }
}
