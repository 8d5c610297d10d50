/** --dir --sync from end to end: the upload, the run, the delta and the
    mirror-back, with the archive format as a pair of inverse functions. */
module SyncRun {
  import opened Prelude
  import opened Frames
  import opened AgentRun
  import ClientLoop
  import History
  import MirrorRun
  import ClientSend
  import AgentReceive
  import Upload
  import TreeSync
  import opened Paths

  type Dir = TreeSync.Tree

  /** The archive as bytes; its trailer makes even an empty one non-empty. */
  datatype Tar = Tar(pack: seq<TreeSync.Entry> -> bytes, unpack: bytes -> Option<seq<TreeSync.Entry>>)

  ghost predicate Inverse(f: Tar) {
    forall es :: f.unpack(f.pack(es)) == Some(es) && f.pack(es) != []
  }

  /** ReadTar on a byte stream. */
  function Untar(f: Tar, d: Dir, data: bytes): Option<Dir> {
    var es := f.unpack(data);
    if es.None? then None else TreeSync.UnpackAll(d, es.value)
  }

  /** The trees the client applied, each on top of the last. */
  function Apply(f: Tar, d: Dir, tars: seq<bytes>): Option<Dir> {
    if tars == [] then Some(d)
    else
      var u := Apply(f, d, tars[..|tars| - 1]);
      if u.None? then None else Untar(f, u.value, tars[|tars| - 1])
  }

  /** The agent either unpacks exactly the client's directory into its empty
      one, or learns that the upload was cut. */
  lemma UploadArrives(f: Tar, local: Dir, walk: seq<Path>, chunks: seq<bytes>,
                      es: seq<ClientSend.Event>, t: ClientSend.State, cut: bytes)
    requires Inverse(f) && TreeSync.TreeOk(local) && TreeSync.IsWalk(local, walk)
    requires ClientSend.TreeOk(chunks) && Flatten(chunks) == f.pack(TreeSync.Pack(local, walk))
    requires ClientSend.Reaches(ClientSend.Start(true, chunks), es, t) && cut <= t.link.wire
    ensures AgentReceive.TreeOf(cut).Tree? ==>
              Untar(f, TreeSync.EMPTY, AgentReceive.TreeOf(cut).tar) == Some(local)
  {
    Upload.NoFrameIsLost(chunks, es, t, cut);
    TreeSync.TarRoundTrip(local, walk);
  }

  /** What the waiter may finish with: nothing when nothing changed, and otherwise
      the archive of the changed files, in chunks. */
  ghost predicate MirrorsDelta(f: Tar, remote: Dir, changed: seq<Path>, tree: Option<seq<bytes>>) {
    match tree
    case None => changed == []
    case Some(chunks) =>
      changed != [] && Flatten(chunks) == f.pack(TreeSync.Pack(remote, TreeSync.Regular(remote, changed)))
  }

  /** In every run whose waiter finishes with the delta, and at every cut of the
      wire, a client that gets an exit code has by then applied the whole delta.
      That fails exactly on a clash, and otherwise leaves the uploaded files
      overridden by the remote ones, deleted ones kept, if and only if no changed
      file collides under the hash. */
  lemma SyncEndToEnd<H>(f: Tar, hash: TreeSync.Content -> H, local: Dir, remote: Dir, changed: seq<Path>,
                        cap: nat, inbox: bytes, es: seq<Event>, t: State, cut: bytes)
    requires Inverse(f) && TreeSync.TreeOk(local) && TreeSync.TreeOk(remote)
    requires TreeSync.IsDelta(local, remote, hash, changed)
    requires Reaches(Started(true, cap, inbox), es, t) && cut <= t.link.wire
    requires forall tree :: Finish(tree) in es ==> MirrorsDelta(f, remote, changed, tree)
    requires ClientLoop.ViewOf(cut).code.Some?
    ensures var r := Apply(f, local, ClientLoop.ViewOf(cut).applied);
            (r.None? <==> TreeSync.Clash(local, remote, changed))
            && (r.Some? ==> (r.value.files == local.files + remote.files
                             <==> !TreeSync.Collision(local, remote, hash)))
  {
    History.RunDelivers(true, cap, inbox, es, t, cut);
    var tree := History.ClosedBy(es).tree;
    History.ClosedIsEvent(es);
    TreeSync.SyncMirrorsBack(local, remote, hash, changed);
    DeltaApplied(f, local, remote, changed, tree, ClientLoop.ViewOf(cut).applied);
  }

  lemma DeltaApplied(f: Tar, local: Dir, remote: Dir, changed: seq<Path>, tree: Option<seq<bytes>>, applied: seq<bytes>)
    requires Inverse(f) && MirrorsDelta(f, remote, changed, tree)
    requires applied == History.Applied(History.Closed(tree))
    ensures Apply(f, local, applied)
         == TreeSync.UnpackAll(local, TreeSync.Pack(remote, TreeSync.Regular(remote, changed)))
  {
    if changed == [] {
      assert applied == [];
      assert TreeSync.UnpackAll(local, TreeSync.Pack(remote, TreeSync.Regular(remote, changed))) == Some(local);
    } else {
      var data := Flatten(tree.value);
      assert applied == [data] && applied[..0] == [];
      assert Apply(f, local, applied) == Untar(f, local, data);
    }
  }

  /** The premises are met: for every delta in chunks there is such a run, heard to
      its end. */
  lemma SyncRunExists(f: Tar, remote: Dir, changed: seq<Path>, chunks: seq<bytes>, how: WaitResult)
    returns (es: seq<Event>, t: State)
    requires Chunks(chunks) && MirrorsDelta(f, remote, changed, Some(chunks))
    ensures Reaches(Started(true, 1, []), es, t) && ClientLoop.ViewOf(t.link.wire).code == Some(ExitStatus(how))
    ensures forall tree :: Finish(tree) in es ==> MirrorsDelta(f, remote, changed, tree)
  {
    es, t := MirrorRun.EveryTreeDelivered(chunks, how);
    History.OneFinish(Started(true, 1, []), es, t);
  }
}
