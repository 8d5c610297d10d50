/** No frame the client sends is lost to a reader that ignores its type: the
    upload comes first and whole, and then every stdin, EOF and signal frame is
    one the agent acts on. */
module Upload {
  import opened Prelude
  import opened Frames
  import opened SharedLink
  import opened ClientSend
  import opened AgentReceive

  /** The number of frames that belong to the upload. */
  function UploadCount(s: State): nat {
    s.begun + if s.marked then 1 else 0
  }

  function LiveFrames(s: State): seq<Frame>
    requires UploadCount(s) <= |s.link.frames|
  {
    s.link.frames[UploadCount(s)..]
  }

  predicate LiveKinds(fs: seq<Frame>) {
    forall i :: 0 <= i < |fs| ==> fs[i].kind == STDIN || fs[i].kind == STDIN_EOF || fs[i].kind == SIGNAL
  }

  ghost predicate UploadOk(dir: bool, s: State) {
    && TreeOk(s.tree)
    && s.begun <= |s.tree| && UploadCount(s) <= |s.link.frames|
    && (forall i :: 0 <= i < s.begun ==> s.link.frames[i] == Frame(IN_TAR, s.tree[i]))
    && (s.marked ==> s.begun == |s.tree| && s.link.frames[s.begun] == Frame(IN_END, []))
    && (!s.upload.Done? ==>
          dir && |s.link.frames| == UploadCount(s) && s.stdin.Reading? && s.signal.Awaiting?)
    && match s.upload
       case Chunks => !s.marked
       case EndMark =>
         if s.marked then s.link.holder == Held(Uploader)
         else s.link.holder != Held(Uploader) && (s.link.broken || s.begun == |s.tree|)
       case Done =>
         && (!dir ==> UploadCount(s) == 0)
         && (dir && !s.marked ==> s.link.broken && |s.link.frames| == s.begun)
  }

  ghost predicate HoldersOk(s: State) {
    && (s.link.holder == Held(Uploader) ==> !s.upload.Done?)
    && (s.link.holder == Held(StdinSender) ==> s.stdin.Sending? || s.stdin.EofSending?)
    && (s.link.holder == Held(SignalSender) ==> s.signal.Forwarding?)
  }

  ghost predicate StdinOk(link: Link<Sender>, fed: Fed, pc: StdinPc, typed: bytes, drained: bool) {
    match pc
    case Reading => fed.stdin == typed && !fed.eof && !drained
    case Holding(chunk, last) =>
      fed.stdin + chunk == typed && !fed.eof && |chunk| <= SEND_BUF && last == drained
    case Sending(last) => fed.stdin == typed && !fed.eof && last == drained && link.holder == Held(StdinSender)
    case EofHeld => fed.stdin == typed && !fed.eof && drained
    case EofSending => fed.stdin == typed && fed.eof && drained && link.holder == Held(StdinSender)
    case Gone =>
      fed.stdin <= typed && (fed.eof ==> fed.stdin == typed && drained) && (fed.eof || link.broken)
  }

  ghost predicate SignalOk(link: Link<Sender>, fed: Fed, pc: SignalPc, raised: bytes) {
    match pc
    case Awaiting => fed.signals == raised || (link.broken && fed.signals <= raised)
    case Caught(n) => fed.signals + [n] == raised || (link.broken && fed.signals <= raised)
    case Forwarding => fed.signals == raised && link.holder == Held(SignalSender)
  }

  ghost predicate Inv(dir: bool, s: State) {
    && LinkOk(s.link) && UploadOk(dir, s) && HoldersOk(s)
    && LiveKinds(LiveFrames(s))
    && StdinOk(s.link, FedBy(LiveFrames(s)), s.stdin, s.typed, s.drained)
    && SignalOk(s.link, FedBy(LiveFrames(s)), s.signal, s.raised)
  }

  lemma StartInv(dir: bool, tree: seq<bytes>)
    requires TreeOk(tree)
    ensures Inv(dir, Start(dir, tree))
  {
    var s := Start(dir, tree);
    LinkStarts();
    assert UploadOk(dir, s);
    NothingLive(s);
  }

  lemma LinkStarts()
    ensures LinkOk(NewLink<Sender>())
  {
  }

  lemma NothingLive(s: State)
    requires s.link.frames == [] && UploadCount(s) == 0
    ensures LiveFrames(s) == [] && FedBy(LiveFrames(s)) == Fed([], false, [])
  {
    assert LiveFrames(s) == [];
  }

  // ---- Preservation ----

  lemma UploadBeginsInv(dir: bool, s: State)
    requires Inv(dir, s) && Enabled(s, UploadBegins)
    ensures Inv(dir, Step(s, UploadBegins))
  {
    BeginOk(s.link, Uploader, UploadFrame(s));
    var t := Step(s, UploadBegins);
    assert LiveFrames(t) == [] == LiveFrames(s);
  }

  lemma UploadEndsInv(dir: bool, s: State, e: Event)
    requires Inv(dir, s) && Enabled(s, e) && (e.UploadWrote? || e.UploadFails? || e.WalkEnds?)
    ensures Inv(dir, Step(s, e))
  {
    if s.link.holder == Held(Uploader) && !e.WalkEnds? {
      UnlockOk(s.link, Uploader);
    }
    assert LiveFrames(Step(s, e)) == LiveFrames(s);
  }

  /** A live frame extends the live part and leaves the upload alone. */
  lemma LiveBegins(dir: bool, s: State, w: Sender, f: Frame)
    requires LinkOk(s.link) && UploadOk(dir, s) && LiveKinds(LiveFrames(s))
    requires s.upload.Done? && CanBegin(s.link, f) && w != Uploader
    requires f.kind == STDIN || f.kind == STDIN_EOF || f.kind == SIGNAL
    ensures var t := s.(link := Begin(s.link, w, f));
            LinkOk(t.link) && UploadOk(dir, t) && LiveKinds(LiveFrames(t))
            && FedBy(LiveFrames(t)) == Feed(FedBy(LiveFrames(s)), f)
  {
    BeginOk(s.link, w, f);
    FedSnoc(LiveFrames(s), f);
    assert (s.link.frames + [f])[UploadCount(s)..] == LiveFrames(s) + [f];
  }

  lemma StdinBeginsInv(dir: bool, s: State)
    requires Inv(dir, s) && Enabled(s, StdinBegins)
    ensures Inv(dir, Step(s, StdinBegins))
  {
    var t := Step(s, StdinBegins);
    LiveBegins(dir, s, StdinSender, StdinFrame(s));
    assert LiveFrames(t) == LiveFrames(s.(link := Begin(s.link, StdinSender, StdinFrame(s))));
    var fed := FedBy(LiveFrames(s));
    if s.stdin.Holding? {
      ChunkSent(s.link, t.link, fed, s.stdin.chunk, s.stdin.last, s.typed, s.drained);
    } else {
      EofSent(s.link, t.link, fed, s.typed, s.drained);
    }
    StdinFed(s.link, t.link, fed, StdinFrame(s), s.signal, s.raised);
  }

  lemma ChunkSent(l: Link<Sender>, l': Link<Sender>, fed: Fed, chunk: bytes, last: bool, typed: bytes, drained: bool)
    requires StdinOk(l, fed, Holding(chunk, last), typed, drained) && l'.holder == Held(StdinSender)
    ensures StdinOk(l', Feed(fed, Frame(STDIN, chunk)), Sending(last), typed, drained)
  {
  }

  lemma EofSent(l: Link<Sender>, l': Link<Sender>, fed: Fed, typed: bytes, drained: bool)
    requires StdinOk(l, fed, EofHeld, typed, drained) && l'.holder == Held(StdinSender)
    ensures StdinOk(l', Feed(fed, Frame(STDIN_EOF, [])), EofSending, typed, drained)
  {
  }

  /** A stdin frame is nothing to the signals. */
  lemma StdinFed(l: Link<Sender>, l': Link<Sender>, fed: Fed, f: Frame, pc: SignalPc, raised: bytes)
    requires SignalOk(l, fed, pc, raised) && l.holder != Held(SignalSender) && l'.broken == l.broken
    requires f.kind == STDIN || f.kind == STDIN_EOF
    ensures SignalOk(l', Feed(fed, f), pc, raised)
  {
  }

  lemma SignalBeginsInv(dir: bool, s: State)
    requires Inv(dir, s) && Enabled(s, SignalBegins)
    ensures Inv(dir, Step(s, SignalBegins))
  {
    var f := Frame(SIGNAL, [s.signal.signal]);
    var t := Step(s, SignalBegins);
    var fed := FedBy(LiveFrames(s));
    LiveBegins(dir, s, SignalSender, f);
    assert LiveFrames(t) == LiveFrames(s.(link := Begin(s.link, SignalSender, f)));
    SignalFed(s.link, t.link, fed, f, s.stdin, s.typed, s.drained);
    CaughtFed(s.link, t.link, fed, s.signal.signal, s.raised);
    assert UploadOk(dir, t);
  }

  lemma CaughtFed(l: Link<Sender>, l': Link<Sender>, fed: Fed, n: byte, raised: bytes)
    requires SignalOk(l, fed, Caught(n), raised) && !l.broken && l'.holder == Held(SignalSender)
    ensures SignalOk(l', Feed(fed, Frame(SIGNAL, [n])), Forwarding, raised)
  {
  }

  /** A signal frame is nothing to stdin. */
  lemma SignalFed(l: Link<Sender>, l': Link<Sender>, fed: Fed, f: Frame, pc: StdinPc, typed: bytes, drained: bool)
    requires StdinOk(l, fed, pc, typed, drained) && l.holder != Held(StdinSender)
    requires f.kind == SIGNAL && l'.broken == l.broken
    ensures StdinOk(l', Feed(fed, f), pc, typed, drained)
  {
  }

  /** A step that leaves the upload, the link and the other fields it reads alone. */
  lemma UploadLeft(dir: bool, s: State, t: State)
    requires UploadOk(dir, s) && s.upload.Done?
    requires t == s.(typed := t.typed, drained := t.drained, stdin := t.stdin, signal := t.signal, raised := t.raised)
    ensures UploadOk(dir, t) && LiveFrames(t) == LiveFrames(s)
  {
  }

  lemma StdinReadsInv(dir: bool, s: State, data: bytes, last: bool)
    requires Inv(dir, s) && Enabled(s, StdinReads(data, last))
    ensures Inv(dir, Step(s, StdinReads(data, last)))
  {
    UploadLeft(dir, s, Step(s, StdinReads(data, last)));
    StdinRead(s.link, FedBy(LiveFrames(s)), s.typed, s.drained, data, last);
  }

  lemma StdinRead(l: Link<Sender>, fed: Fed, typed: bytes, drained: bool, data: bytes, last: bool)
    requires StdinOk(l, fed, Reading, typed, drained) && |data| <= SEND_BUF && (data != [] || last)
    ensures StdinOk(l, fed, if data != [] then Holding(data, last) else EofHeld, typed + data, last)
  {
    if data == [] {
      assert typed + [] == typed;
    }
  }

  lemma StdinWroteInv(dir: bool, s: State)
    requires Inv(dir, s) && Enabled(s, StdinWrote)
    ensures Inv(dir, Step(s, StdinWrote))
  {
    UnlockOk(s.link, StdinSender);
    assert LiveFrames(Step(s, StdinWrote)) == LiveFrames(s);
  }

  lemma StdinFailsInv(dir: bool, s: State)
    requires Inv(dir, s) && Enabled(s, StdinFails)
    ensures Inv(dir, Step(s, StdinFails))
  {
    if s.link.holder == Held(StdinSender) {
      UnlockOk(s.link, StdinSender);
    }
    assert LiveFrames(Step(s, StdinFails)) == LiveFrames(s);
  }

  lemma SignalCaughtInv(dir: bool, s: State, term: bool)
    requires Inv(dir, s) && Enabled(s, SignalCaught(term))
    ensures Inv(dir, Step(s, SignalCaught(term)))
  {
    assert LiveFrames(Step(s, SignalCaught(term))) == LiveFrames(s);
  }

  lemma SignalEndsInv(dir: bool, s: State, e: Event)
    requires Inv(dir, s) && Enabled(s, e) && (e.SignalWrote? || e.SignalFails?)
    ensures Inv(dir, Step(s, e))
  {
    if s.link.holder == Held(SignalSender) {
      UnlockOk(s.link, SignalSender);
    }
    assert LiveFrames(Step(s, e)) == LiveFrames(s);
  }

  lemma LinkStepInv(dir: bool, s: State, e: Event)
    requires Inv(dir, s) && Enabled(s, e) && (e.LinkDies? || e.Accept?)
    ensures Inv(dir, Step(s, e))
  {
    if e.Accept? {
      PushOk(s.link, e.k);
    }
    assert LiveFrames(Step(s, e)) == LiveFrames(s);
  }

  lemma StepInv(dir: bool, s: State, e: Event)
    requires Inv(dir, s) && Enabled(s, e)
    ensures Inv(dir, Step(s, e))
  {
    match e
    case UploadBegins => UploadBeginsInv(dir, s);
    case UploadWrote => UploadEndsInv(dir, s, e);
    case UploadFails => UploadEndsInv(dir, s, e);
    case WalkEnds => UploadEndsInv(dir, s, e);
    case StdinBegins => StdinBeginsInv(dir, s);
    case SignalBegins => SignalBeginsInv(dir, s);
    case StdinReads(data, last) => StdinReadsInv(dir, s, data, last);
    case StdinWrote => StdinWroteInv(dir, s);
    case StdinFails => StdinFailsInv(dir, s);
    case SignalCaught(term) => SignalCaughtInv(dir, s, term);
    case SignalWrote => SignalEndsInv(dir, s, e);
    case SignalFails => SignalEndsInv(dir, s, e);
    case LinkDies => LinkStepInv(dir, s, e);
    case Accept(_) => LinkStepInv(dir, s, e);
  }

  lemma {:induction false} RunInv(dir: bool, s: State, es: seq<Event>, t: State)
    requires Inv(dir, s) && Reaches(s, es, t)
    ensures Inv(dir, t)
    decreases |es|
  {
    if es != [] {
      StepInv(dir, s, es[0]);
      RunInv(dir, Step(s, es[0]), es[1..], t);
    }
  }

  // ---- What the agent receives ----

  /** fed is what reached the agent of what the user typed and raised. */
  ghost predicate Delivers(t: State, fed: Fed) {
    && fed.stdin <= t.typed
    && fed.signals <= t.raised
    && (fed.eof ==> t.drained && fed.stdin == t.typed)
  }

  // ---- What happened at the client, from the events ----

  /** Everything read from the client's stdin. */
  function TypedBy(es: seq<Event>): bytes {
    if es == [] then [] else (if es[0].StdinReads? then es[0].data else []) + TypedBy(es[1..])
  }

  /** The signal numbers of the caught signals: 2 for an interrupt, 15 for a termination. */
  function RaisedBy(es: seq<Event>): bytes {
    if es == [] then []
    else (if es[0].SignalCaught? then [if es[0].term then 15 else 2] else []) + RaisedBy(es[1..])
  }

  /** The last read of stdin reported its end. */
  function DrainedBy(es: seq<Event>): bool {
    if es == [] then false
    else
      var last := es[|es| - 1];
      if last.StdinReads? then last.last else DrainedBy(es[..|es| - 1])
  }

  lemma TypedSnoc(es: seq<Event>, e: Event)
    ensures TypedBy(es + [e]) == TypedBy(es) + (if e.StdinReads? then e.data else [])
    ensures RaisedBy(es + [e]) == RaisedBy(es) + (if e.SignalCaught? then [if e.term then 15 else 2] else [])
    decreases |es|
  {
    if es == [] {
      var none: bytes := [];
      assert es + [e] == [e] && [e][1..] == es;
      assert none + none == none;
      assert (if e.StdinReads? then e.data else []) + none == none + (if e.StdinReads? then e.data else []);
    } else {
      assert (es + [e])[0] == es[0] && (es + [e])[1..] == es[1..] + [e];
      TypedSnoc(es[1..], e);
      Assoc(if es[0].StdinReads? then es[0].data else [], TypedBy(es[1..]), if e.StdinReads? then e.data else []);
      Assoc(if es[0].SignalCaught? then [if es[0].term then 15 else 2] else [], RaisedBy(es[1..]),
            if e.SignalCaught? then [if e.term then 15 else 2] else []);
    }
  }

  /** The state remembers just that. */
  ghost predicate Remembers(es: seq<Event>, s: State) {
    s.typed == TypedBy(es) && s.raised == RaisedBy(es) && s.drained == DrainedBy(es)
  }

  lemma StepRemembers(es: seq<Event>, s: State, e: Event)
    requires Remembers(es, s) && Enabled(s, e)
    ensures Remembers(es + [e], Step(s, e))
  {
    TypedSnoc(es, e);
    assert (es + [e])[..|es|] == es;
    assert s.typed + [] == s.typed && s.raised + [] == s.raised;
  }

  lemma {:induction false} RunRemembers(before: seq<Event>, s: State, es: seq<Event>, t: State)
    requires Remembers(before, s) && Reaches(s, es, t)
    ensures Remembers(before + es, t)
    decreases |es|
  {
    if es == [] {
      assert before + es == before;
    } else {
      StepRemembers(before, s, es[0]);
      RunRemembers(before + [es[0]], Step(s, es[0]), es[1..], t);
      assert before + [es[0]] + es[1..] == before + es;
    }
  }

  /** What the client's senders remember is what happened. */
  lemma Remembered(dir: bool, tree: seq<bytes>, es: seq<Event>, t: State)
    requires Reaches(Start(dir, tree), es, t)
    ensures Remembers(es, t)
  {
    var none: seq<Event> := [];
    RunRemembers(none, Start(dir, tree), es, t);
    assert none + es == es;
  }

  /** What is fed to the process of what happened at the client. */
  predicate Conveys(es: seq<Event>, fed: Fed) {
    && fed.stdin <= TypedBy(es)
    && fed.signals <= RaisedBy(es)
    && (fed.eof ==> DrainedBy(es) && fed.stdin == TypedBy(es))
  }

  lemma {:induction false} TarContents(tree: seq<bytes>, fs: seq<Frame>)
    requires |fs| <= |tree| && forall i :: 0 <= i < |fs| ==> fs[i] == Frame(IN_TAR, tree[i])
    ensures AllTars(fs) && Contents(fs) == Flatten(tree[..|fs|])
    decreases |fs|
  {
    if fs != [] {
      TarContents(tree[1..], fs[1..]);
      assert tree[..|fs|][1..] == tree[1..][..|fs| - 1];
    }
  }

  lemma {:induction false} FlattenPrefix(tree: seq<bytes>, n: nat)
    requires n <= |tree|
    ensures Flatten(tree[..n]) <= Flatten(tree)
  {
    assert tree == tree[..n] + tree[n..];
    FlattenConcat(tree[..n], tree[n..]);
  }

  lemma LiveDelivers(dir: bool, t: State, k: nat)
    requires Inv(dir, t) && k <= |LiveFrames(t)|
    ensures Delivers(t, FedBy(LiveFrames(t)[..k])) && LiveKinds(LiveFrames(t)[..k])
  {
    FedPrefix(LiveFrames(t), k);
    assert FedBy(LiveFrames(t)).stdin <= t.typed;
  }

  lemma {:induction false} TreeStays(s: State, es: seq<Event>, t: State)
    requires Reaches(s, es, t)
    ensures t.tree == s.tree
    decreases |es|
  {
    if es != [] {
      TreeStays(Step(s, es[0]), es[1..], t);
    }
  }

  /** The received frames split at the end marker like the sent ones. */
  lemma SplitAtMarker(t: State, got: seq<Frame>)
    requires UploadOk(true, t) && t.marked && got <= t.link.frames && |got| > t.begun
    ensures AllTars(got[..t.begun]) && Contents(got[..t.begun]) == Flatten(t.tree)
    ensures got[t.begun].kind == IN_END
    ensures got[t.begun + 1..] == LiveFrames(t)[..|got| - t.begun - 1]
  {
    TarContents(t.tree, got[..t.begun]);
    assert t.tree[..t.begun] == t.tree;
  }

  lemma WholeUpload(t: State, cut: bytes)
    requires Inv(true, t) && cut <= t.link.wire && t.marked && |ReadAll(cut).frames| > t.begun
    ensures TreeOf(cut).Tree? && TreeOf(cut).tar == Flatten(t.tree)
    ensures LiveKinds(ReadAll(TreeOf(cut).rest).frames)
    ensures Delivers(t, FedBy(ReadAll(TreeOf(cut).rest).frames))
  {
    FarEnd(t.link, cut);
    var got := ReadAll(cut).frames;
    SplitAtMarker(t, got);
    TreeComplete(cut, t.begun);
    LiveDelivers(true, t, |got| - t.begun - 1);
  }

  lemma CutUpload(t: State, cut: bytes)
    requires Inv(true, t) && cut <= t.link.wire && !(t.marked && |ReadAll(cut).frames| > t.begun)
    ensures TreeOf(cut).Lost? && TreeOf(cut).tar <= Flatten(t.tree)
  {
    FarEnd(t.link, cut);
    var got, fs := ReadAll(cut).frames, t.link.frames;
    assert got == fs[..|got|] && |got| <= t.begun;
    TarContents(t.tree, got);
    TreeCut(cut);
    FlattenPrefix(t.tree, |got|);
  }

  /** Main result for --dir: in every interleaving and for every prefix of the
      wire, recvTree either returns the whole tree and leaves the next reader
      frames that are all its own, or fails with a prefix of the tree. */
  lemma NoFrameIsLost(tree: seq<bytes>, es: seq<Event>, t: State, cut: bytes)
    requires TreeOk(tree) && Reaches(Start(true, tree), es, t) && cut <= t.link.wire
    ensures TreeOf(cut).Lost? ==> TreeOf(cut).tar <= Flatten(tree)
    ensures TreeOf(cut).Tree? ==>
              && TreeOf(cut).tar == Flatten(tree)
              && LiveKinds(ReadAll(TreeOf(cut).rest).frames)
              && Conveys(es, FedBy(ReadAll(TreeOf(cut).rest).frames))
  {
    StartInv(true, tree);
    RunInv(true, Start(true, tree), es, t);
    TreeStays(Start(true, tree), es, t);
    Remembered(true, tree, es, t);
    if t.marked && |ReadAll(cut).frames| > t.begun {
      WholeUpload(t, cut);
    } else {
      CutUpload(t, cut);
    }
  }

  /** The same for a run without --dir: every frame is one the agent acts on. */
  lemma PlainRunDelivers(es: seq<Event>, t: State, cut: bytes)
    requires Reaches(Start(false, []), es, t) && cut <= t.link.wire
    ensures LiveKinds(ReadAll(cut).frames)
    ensures Conveys(es, FedBy(ReadAll(cut).frames))
  {
    Remembered(false, [], es, t);
    StartInv(false, []);
    RunInv(false, Start(false, []), es, t);
    FarEnd(t.link, cut);
    assert UploadCount(t) == 0;
    assert LiveFrames(t) == t.link.frames;
    LiveDelivers(false, t, |ReadAll(cut).frames|);
  }

  /** What is on the wire of an unbroken, unlocked upload: the tree, and after it
      the live frames. */
  lemma WireWhole(t: State)
    requires Inv(true, t) && t.upload.Done? && t.link.holder.Free? && !t.link.broken
    ensures TreeOf(t.link.wire).Tree? && TreeOf(t.link.wire).tar == Flatten(t.tree)
    ensures ReadAll(TreeOf(t.link.wire).rest).frames == LiveFrames(t)
  {
    var fs := t.link.frames;
    assert t.link.wire == EncodeAll(fs);
    ReadAllEncoded(fs);
    TarContents(t.tree, fs[..t.begun]);
    assert t.tree[..t.begun] == t.tree;
    TreeComplete(t.link.wire, t.begun);
    assert ReadAll(t.link.wire).frames[t.begun + 1..] == LiveFrames(t);
  }

  /** Senders that are done on an unbroken link have sent everything. */
  lemma SendersDone(dir: bool, t: State)
    requires Inv(dir, t) && t.stdin.Gone? && !t.link.broken
    ensures t.upload.Done?
    ensures var fed := FedBy(LiveFrames(t));
            fed.eof && fed.stdin == t.typed && (t.signal.Awaiting? ==> fed.signals == t.raised)
  {
  }

  /** Nothing is held back: when stdin has ended, its sender is done and the
      connection held, the bytes that arrive include all of stdin and its end. */
  lemma CompleteStdin(tree: seq<bytes>, es: seq<Event>, t: State)
    requires TreeOk(tree) && Reaches(Start(true, tree), es, t)
    requires t.stdin.Gone? && t.link.holder.Free? && !t.link.broken
    ensures TreeOf(t.link.wire).Tree? && TreeOf(t.link.wire).tar == Flatten(tree)
    ensures FedBy(ReadAll(TreeOf(t.link.wire).rest).frames).eof
    ensures FedBy(ReadAll(TreeOf(t.link.wire).rest).frames).stdin == TypedBy(es)
    ensures t.signal.Awaiting? ==> FedBy(ReadAll(TreeOf(t.link.wire).rest).frames).signals == RaisedBy(es)
  {
    Remembered(true, tree, es, t);
    StartInv(true, tree);
    RunInv(true, Start(true, tree), es, t);
    TreeStays(Start(true, tree), es, t);
    SendersDone(true, t);
    WireWhole(t);
  }

  /** The same without a directory. */
  lemma CompleteStdinPlain(es: seq<Event>, t: State)
    requires Reaches(Start(false, []), es, t)
    requires t.stdin.Gone? && t.link.holder.Free? && !t.link.broken
    ensures FedBy(ReadAll(t.link.wire).frames).eof && FedBy(ReadAll(t.link.wire).frames).stdin == TypedBy(es)
    ensures t.signal.Awaiting? ==> FedBy(ReadAll(t.link.wire).frames).signals == RaisedBy(es)
  {
    Remembered(false, [], es, t);
    StartInv(false, []);
    RunInv(false, Start(false, []), es, t);
    SendersDone(false, t);
    assert LiveFrames(t) == t.link.frames;
    assert t.link.wire == EncodeAll(t.link.frames);
    ReadAllEncoded(t.link.frames);
  }
}
