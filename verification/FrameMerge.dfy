/** Several writers, each with its own frames to send, over one shared link. */
module FrameMerge {
  import opened Frames
  import opened SharedLink

  /** writer i still has programs[i][started[i]..] to write;
      owners[j] is the writer of the link's j-th frame. */
  datatype State = State(link: Link<nat>, started: seq<nat>, owners: seq<nat>)

  datatype Event =
    | Start(w: nat)      // take the lock and begin the next frame
    | Refuse(w: nat)     // the next frame is over MAX_FRAME: an error, nothing written
    | Accept(k: nat)     // the connection accepts k bytes
    | Return(w: nat)     // the write ends, with or without an error
    | Fail               // the connection dies

  function Init(programs: seq<seq<Frame>>): State {
    State(NewLink(), seq(|programs|, i => 0), [])
  }

  ghost predicate Shaped(programs: seq<seq<Frame>>, s: State) {
    && |s.started| == |programs|
    && forall w :: 0 <= w < |programs| ==> s.started[w] <= |programs[w]|
  }

  ghost predicate Enabled(programs: seq<seq<Frame>>, s: State, e: Event)
    requires Shaped(programs, s)
  {
    match e
    case Start(w) => w < |programs| && s.started[w] < |programs[w]|
      && CanBegin(s.link, programs[w][s.started[w]])
    case Refuse(w) => w < |programs| && s.started[w] < |programs[w]|
      && !Fits(programs[w][s.started[w]])
    case Accept(k) => CanPush(s.link, k)
    case Return(w) => Written(s.link, w) || CutOff(s.link, w)
    case Fail => true
  }

  ghost function Step(programs: seq<seq<Frame>>, s: State, e: Event): (t: State)
    requires Shaped(programs, s) && Enabled(programs, s, e)
    ensures Shaped(programs, t)
  {
    match e
    case Start(w) =>
      State(Begin(s.link, w, programs[w][s.started[w]]), s.started[w := s.started[w] + 1], s.owners + [w])
    case Refuse(w) => s.(started := s.started[w := s.started[w] + 1])
    case Accept(k) => s.(link := Push(s.link, k))
    case Return(w) => s.(link := Unlock(s.link))
    case Fail => s.(link := Sever(s.link))
  }

  /** t is reached from s by the events es. */
  ghost predicate Reaches(programs: seq<seq<Frame>>, s: State, es: seq<Event>, t: State)
    requires Shaped(programs, s)
    decreases |es|
  {
    if es == [] then s == t
    else Enabled(programs, s, es[0]) && Reaches(programs, Step(programs, s, es[0]), es[1..], t)
  }

  /** The frames of fs whose owner is w, in order. */
  function Project(fs: seq<Frame>, owners: seq<nat>, w: nat): seq<Frame>
    requires |fs| == |owners|
  {
    if fs == [] then []
    else (if owners[0] == w then [fs[0]] else []) + Project(fs[1..], owners[1..], w)
  }

  function Sendable(fs: seq<Frame>): seq<Frame> {
    if fs == [] then []
    else (if Fits(fs[0]) then [fs[0]] else []) + Sendable(fs[1..])
  }

  /** Every frame belongs to one of the writers. */
  predicate OwnedByWriters(programs: seq<seq<Frame>>, owners: seq<nat>) {
    forall j :: 0 <= j < |owners| ==> owners[j] < |programs|
  }

  ghost predicate Inv(programs: seq<seq<Frame>>, s: State) {
    && Shaped(programs, s)
    && LinkOk(s.link)
    && |s.owners| == |s.link.frames| && OwnedByWriters(programs, s.owners)
    && forall w: nat :: w < |programs| ==>
         Project(s.link.frames, s.owners, w) == Sendable(programs[w][..s.started[w]])
  }

  lemma {:induction false} ProjectConcat(a: seq<Frame>, oa: seq<nat>, b: seq<Frame>, ob: seq<nat>, w: nat)
    requires |a| == |oa| && |b| == |ob|
    ensures Project(a + b, oa + ob, w) == Project(a, oa, w) + Project(b, ob, w)
  {
    if a == [] {
      assert a + b == b && oa + ob == ob;
    } else {
      ProjectConcat(a[1..], oa[1..], b, ob, w);
      var head := if oa[0] == w then [a[0]] else [];
      assert (a + b)[1..] == a[1..] + b && (oa + ob)[1..] == oa[1..] + ob;
      assert Project(a + b, oa + ob, w) == head + Project(a[1..] + b, oa[1..] + ob, w);
      assert Project(a, oa, w) == head + Project(a[1..], oa[1..], w);
    }
  }

  lemma {:induction false} SendableSnoc(fs: seq<Frame>, f: Frame)
    ensures Sendable(fs + [f]) == Sendable(fs) + (if Fits(f) then [f] else [])
  {
    if fs != [] {
      assert (fs + [f])[1..] == fs[1..] + [f];
      SendableSnoc(fs[1..], f);
    }
  }

  lemma Advance(program: seq<Frame>, n: nat)
    requires n < |program|
    ensures Sendable(program[..n + 1])
         == Sendable(program[..n]) + (if Fits(program[n]) then [program[n]] else [])
  {
    assert program[..n + 1] == program[..n] + [program[n]];
    SendableSnoc(program[..n], program[n]);
  }

  lemma StepInv(programs: seq<seq<Frame>>, s: State, e: Event)
    requires Inv(programs, s) && Enabled(programs, s, e)
    ensures Inv(programs, Step(programs, s, e))
  {
    var t := Step(programs, s, e);
    match e
    case Start(w) =>
      var f := programs[w][s.started[w]];
      BeginOk(s.link, w, f);
      forall v: nat | v < |programs|
        ensures Project(t.link.frames, t.owners, v) == Sendable(programs[v][..t.started[v]])
      {
        ProjectConcat(s.link.frames, s.owners, [f], [w], v);
        Advance(programs[w], s.started[w]);
      }
    case Refuse(w) => Advance(programs[w], s.started[w]);
    case Accept(k) => PushOk(s.link, k);
    case Return(w) => UnlockOk(s.link, w);
    case Fail =>
  }

  lemma {:induction false} RunInv(programs: seq<seq<Frame>>, s: State, es: seq<Event>, t: State)
    requires Inv(programs, s) && Reaches(programs, s, es, t)
    ensures Inv(programs, t)
    decreases |es|
  {
    if es != [] {
      StepInv(programs, s, es[0]);
      RunInv(programs, Step(programs, s, es[0]), es[1..], t);
    }
  }

  lemma InitInv(programs: seq<seq<Frame>>)
    ensures Inv(programs, Init(programs))
  {
    assert forall w: nat :: w < |programs| ==> programs[w][..0] == [];
  }

  /** got is a merge of prefixes of what each writer could send: no frame is
      split, reordered within its writer, duplicated or invented. */
  ghost predicate MergesPrefixes(programs: seq<seq<Frame>>, got: seq<Frame>, owners: seq<nat>) {
    && |got| == |owners| && OwnedByWriters(programs, owners)
    && forall w: nat :: w < |programs| ==> Project(got, owners, w) <= Sendable(programs[w])
  }

  lemma PrefixMerges(programs: seq<seq<Frame>>, t: State, k: nat)
    requires Inv(programs, t) && k <= |t.link.frames|
    ensures MergesPrefixes(programs, t.link.frames[..k], t.owners[..k])
  {
    var fs := t.link.frames;
    assert fs == fs[..k] + fs[k..] && t.owners == t.owners[..k] + t.owners[k..];
    forall w: nat | w < |programs|
      ensures Project(fs[..k], t.owners[..k], w) <= Sendable(programs[w])
    {
      ProjectConcat(fs[..k], t.owners[..k], fs[k..], t.owners[k..], w);
      SendablePrefix(programs[w], t.started[w]);
    }
  }

  /** Not every sequence is such a merge: each frame is one its writer could send. */
  lemma {:induction false} NothingInvented(programs: seq<seq<Frame>>, got: seq<Frame>, owners: seq<nat>, j: nat)
    requires MergesPrefixes(programs, got, owners) && j < |got|
    ensures got[j] in programs[owners[j]] && Fits(got[j])
  {
    ProjectHas(got, owners, j);
    SendableOf(programs[owners[j]], got[j]);
  }

  lemma {:induction false} ProjectHas(fs: seq<Frame>, owners: seq<nat>, j: nat)
    requires |fs| == |owners| && j < |fs|
    ensures fs[j] in Project(fs, owners, owners[j])
  {
    if j > 0 {
      ProjectHas(fs[1..], owners[1..], j - 1);
    }
  }

  lemma {:induction false} SendableOf(fs: seq<Frame>, f: Frame)
    requires f in Sendable(fs)
    ensures f in fs && Fits(f)
  {
    if f != fs[0] || !Fits(fs[0]) {
      SendableOf(fs[1..], f);
    }
  }

  /** Main result: in every interleaving, and for every number of bytes that
      reach the reader, repeated ReadFrame yields a merge of prefixes of the
      writers' frames and then a short read. */
  lemma MergedStream(programs: seq<seq<Frame>>, es: seq<Event>, t: State, cut: bytes)
    requires Reaches(programs, Init(programs), es, t) && cut <= t.link.wire
    ensures exists owners :: MergesPrefixes(programs, ReadAll(cut).frames, owners)
    ensures ReadAll(cut).end == Short
  {
    InitInv(programs);
    RunInv(programs, Init(programs), es, t);
    FarEnd(t.link, cut);
    var k := |ReadAll(cut).frames|;
    assert ReadAll(cut).frames == t.link.frames[..k];
    PrefixMerges(programs, t, k);
  }

  ghost predicate AllReturned(programs: seq<seq<Frame>>, t: State)
    requires Shaped(programs, t)
  {
    && t.link.holder.Free?
    && forall w :: 0 <= w < |programs| ==> t.started[w] == |programs[w]|
  }

  /** When every writer is done, the connection never failed and every byte
      arrived, the reader has every sendable frame of every writer, in order. */
  lemma CompleteMerge(programs: seq<seq<Frame>>, es: seq<Event>, t: State)
    requires Reaches(programs, Init(programs), es, t)
    requires Shaped(programs, t) && AllReturned(programs, t) && !t.link.broken
    ensures |t.owners| == |ReadAll(t.link.wire).frames| && OwnedByWriters(programs, t.owners)
    ensures forall w: nat :: w < |programs| ==>
              Project(ReadAll(t.link.wire).frames, t.owners, w) == Sendable(programs[w])
  {
    InitInv(programs);
    RunInv(programs, Init(programs), es, t);
    assert t.link.wire == EncodeAll(t.link.frames);
    ReadAllEncoded(t.link.frames);
    forall w: nat | w < |programs|
      ensures Project(t.link.frames, t.owners, w) == Sendable(programs[w])
    {
      assert programs[w][..t.started[w]] == programs[w];
    }
  }

  lemma {:induction false} SendablePrefix(fs: seq<Frame>, n: nat)
    requires n <= |fs|
    ensures Sendable(fs[..n]) <= Sendable(fs)
    decreases |fs| - n
  {
    if n < |fs| {
      Advance(fs, n);
      SendablePrefix(fs, n + 1);
    } else {
      assert fs[..n] == fs;
    }
  }
}
