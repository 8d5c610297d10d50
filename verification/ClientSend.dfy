/** The client's sending side of a run: the working-directory upload, then the
    stdin and signal senders, all on one shared frame writer. */
module ClientSend {
  import opened Prelude
  import opened Frames
  import opened SharedLink

  const SEND_BUF: nat := 0x8000
  const SIGINT: byte := 2
  const SIGTERM: byte := 15

  datatype Sender = Uploader | StdinSender | SignalSender

  datatype Upload = Chunks | EndMark | Done

  datatype StdinPc =
    | Reading
    | Holding(chunk: bytes, last: bool)   // os.Stdin.Read returned
    | Sending(last: bool)                 // inside fw.Write
    | EofHeld | EofSending                // the StdinEOF frame
    | Gone

  datatype SignalPc = Awaiting | Caught(signal: byte) | Forwarding

  /** tree    what the directory walk produces, in chunks
      begun   how many chunks have been started; marked: the InEnd frame was
      typed   everything os.Stdin has yielded; drained: it has ended
      raised  the signals caught, in order */
  datatype State = State(
    link: Link<Sender>, tree: seq<bytes>, begun: nat, marked: bool, upload: Upload,
    stdin: StdinPc, typed: bytes, drained: bool, signal: SignalPc, raised: bytes)

  /** A --dir run first streams tree; any other run starts at once. */
  function Start(dir: bool, tree: seq<bytes>): State {
    State(NewLink(), if dir then tree else [], 0, false, if dir then Chunks else Done,
          Reading, [], false, Awaiting, [])
  }

  predicate TreeOk(tree: seq<bytes>) {
    forall i :: 0 <= i < |tree| ==> 0 < |tree[i]| <= SEND_BUF
  }

  datatype Event =
    | LinkDies | Accept(k: nat)
    | UploadBegins | UploadWrote | UploadFails | WalkEnds
    | StdinReads(data: bytes, last: bool) | StdinBegins | StdinWrote | StdinFails
    | SignalCaught(term: bool) | SignalBegins | SignalWrote | SignalFails

  function UploadFrame(s: State): Frame
    requires s.upload.EndMark? || (s.upload.Chunks? && s.begun < |s.tree|)
  {
    if s.upload.EndMark? then Frame(IN_END, []) else Frame(IN_TAR, s.tree[s.begun])
  }

  function StdinFrame(s: State): Frame
    requires s.stdin.Holding? || s.stdin.EofHeld?
  {
    if s.stdin.Holding? then Frame(STDIN, s.stdin.chunk) else Frame(STDIN_EOF, [])
  }

  predicate Enabled(s: State, e: Event) {
    match e
    case LinkDies => true
    case Accept(k) => CanPush(s.link, k)
    case UploadBegins =>
      && (s.upload.EndMark? || (s.upload.Chunks? && s.begun < |s.tree|))
      && CanBegin(s.link, UploadFrame(s))
    case UploadWrote => !s.upload.Done? && Written(s.link, Uploader)
    case UploadFails =>
      && !s.upload.Done?
      && (CutOff(s.link, Uploader)
          || (Refuses(s.link) && (s.upload.EndMark? || s.begun < |s.tree|)))
    case WalkEnds => s.upload.Chunks? && s.link.holder.Free? && s.begun == |s.tree|
    case StdinReads(data, last) =>
      s.upload.Done? && s.stdin.Reading? && |data| <= SEND_BUF && (data != [] || last)
    case StdinBegins => (s.stdin.Holding? || s.stdin.EofHeld?) && CanBegin(s.link, StdinFrame(s))
    case StdinWrote => (s.stdin.Sending? || s.stdin.EofSending?) && Written(s.link, StdinSender)
    case StdinFails =>
      || ((s.stdin.Sending? || s.stdin.EofSending?) && CutOff(s.link, StdinSender))
      || ((s.stdin.Holding? || s.stdin.EofHeld?) && Refuses(s.link))
    case SignalCaught(term) => s.upload.Done? && s.signal.Awaiting?
    case SignalBegins => s.signal.Caught? && CanBegin(s.link, Frame(SIGNAL, [s.signal.signal]))
    case SignalWrote => s.signal.Forwarding? && Written(s.link, SignalSender)
    case SignalFails =>
      || (s.signal.Forwarding? && CutOff(s.link, SignalSender))
      || (s.signal.Caught? && Refuses(s.link))
  }

  function Free(l: Link<Sender>): Link<Sender> {
    if l.holder.Free? then l else Unlock(l)
  }

  function Step(s: State, e: Event): State
    requires Enabled(s, e)
  {
    match e
    case LinkDies => s.(link := Sever(s.link))
    case Accept(k) => s.(link := Push(s.link, k))
    case UploadBegins =>
      var l := Begin(s.link, Uploader, UploadFrame(s));
      if s.upload.EndMark? then s.(link := l, marked := true) else s.(link := l, begun := s.begun + 1)
    case UploadWrote => s.(link := Unlock(s.link), upload := if s.upload.EndMark? then Done else Chunks)
    case UploadFails => s.(link := Free(s.link), upload := if s.upload.EndMark? then Done else EndMark)
    case WalkEnds => s.(upload := EndMark)
    case StdinReads(data, last) =>
      s.(typed := s.typed + data, drained := last,
         stdin := if data != [] then Holding(data, last) else EofHeld)
    case StdinBegins =>
      s.(link := Begin(s.link, StdinSender, StdinFrame(s)),
         stdin := if s.stdin.Holding? then Sending(s.stdin.last) else EofSending)
    case StdinWrote =>
      s.(link := Unlock(s.link),
         stdin := if s.stdin.EofSending? then Gone else if s.stdin.last then EofHeld else Reading)
    case StdinFails => s.(link := Free(s.link), stdin := Gone)
    case SignalCaught(term) =>
      var n := if term then SIGTERM else SIGINT;
      s.(signal := Caught(n), raised := s.raised + [n])
    case SignalBegins =>
      s.(link := Begin(s.link, SignalSender, Frame(SIGNAL, [s.signal.signal])), signal := Forwarding)
    case SignalWrote => s.(link := Unlock(s.link), signal := Awaiting)
    case SignalFails => s.(link := Free(s.link), signal := Awaiting)
  }

  ghost predicate Reaches(s: State, es: seq<Event>, t: State)
    decreases |es|
  {
    if es == [] then s == t
    else Enabled(s, es[0]) && Reaches(Step(s, es[0]), es[1..], t)
  }
}
