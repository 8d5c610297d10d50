/** The stdio framing of the run protocol: one type byte, a four-byte big-endian
    length, and the payload. */
module Frames {

  type byte = b: int | 0 <= b < 0x100
  type bytes = seq<byte>

  const STDOUT: byte := 1
  const STDERR: byte := 2
  const EXIT: byte := 3
  const STDIN: byte := 10
  const STDIN_EOF: byte := 11
  const SIGNAL: byte := 12
  const IN_TAR: byte := 20
  const IN_END: byte := 21
  const OUT_TAR: byte := 30
  const OUT_END: byte := 31

  const MAX_FRAME: nat := 0x10_0000
  const NEWLINE: byte := 0x0a

  const HEADER: nat := 5
  const TWO32: int := 0x1_0000_0000
  const TWO31: int := 0x8000_0000

  datatype Frame = Frame(kind: byte, payload: bytes)

  /** FrameWriter.Write refuses anything larger. */
  predicate Fits(f: Frame) {
    |f.payload| <= MAX_FRAME
  }

  predicate AllFit(fs: seq<Frame>) {
    forall i :: 0 <= i < |fs| ==> Fits(fs[i])
  }

  // ---- Four-byte big-endian integers ----

  function PutU32(n: nat): (b: bytes)
    requires n < TWO32
    ensures |b| == 4
  {
    [n / 0x100_0000, n / 0x1_0000 % 0x100, n / 0x100 % 0x100, n % 0x100]
  }

  function U32(b: bytes): (n: nat)
    requires |b| == 4
    ensures n < TWO32
  {
    var b0: int, b1: int, b2: int, b3: int := b[0], b[1], b[2], b[3];
    ((b0 * 0x100 + b1) * 0x100 + b2) * 0x100 + b3
  }

  /** Big-endian: the most significant byte comes first. */
  lemma PutU32IsBigEndian(n: nat, b0: nat, b1: nat, b2: nat, b3: nat)
    requires b0 < 256 && b1 < 256 && b2 < 256 && b3 < 256
    requires n == 16777216 * b0 + 65536 * b1 + 256 * b2 + b3
    ensures PutU32(n) == [b0, b1, b2, b3]
  {
    assert n / 0x100_0000 == b0;
    assert n / 0x1_0000 == 256 * b0 + b1;
    assert n / 0x100 == 65536 * b0 + 256 * b1 + b2;
  }

  lemma U32RoundTrip(n: nat)
    requires n < TWO32
    ensures U32(PutU32(n)) == n
  {
    assert n / 0x100 / 0x100 == n / 0x1_0000;
    assert n / 0x1_0000 / 0x100 == n / 0x100_0000;
  }

  // ---- One frame ----

  function Encode(f: Frame): (b: bytes)
    requires Fits(f)
    ensures |b| == HEADER + |f.payload|
  {
    [f.kind] + PutU32(|f.payload|) + f.payload
  }

  /** The wire format byte by byte: the type, the length most significant byte
      first, the payload. */
  lemma WireFormat(f: Frame, b0: nat, b1: nat, b2: nat, b3: nat)
    requires Fits(f) && b0 < 256 && b1 < 256 && b2 < 256 && b3 < 256
    requires |f.payload| == 16777216 * b0 + 65536 * b1 + 256 * b2 + b3
    ensures Encode(f) == [f.kind, b0, b1, b2, b3] + f.payload
  {
    PutU32IsBigEndian(|f.payload|, b0, b1, b2, b3);
    assert [f.kind] + [b0, b1, b2, b3] == [f.kind, b0, b1, b2, b3];
  }

  /** What ReadFrame makes of a byte stream that is followed by a read error:
      a frame and the bytes left, too few bytes, or a declared length above the cap. */
  datatype ReadResult = Got(frame: Frame, rest: bytes) | Short | TooLarge(declared: nat)

  function ReadFrame(s: bytes): (r: ReadResult)
    ensures r.Got? ==> Fits(r.frame) && |s| == HEADER + |r.frame.payload| + |r.rest|
  {
    if |s| < HEADER then Short
    else
      var n := U32(s[1..HEADER]);
      if n > MAX_FRAME then TooLarge(n)
      else if |s| - HEADER < n then Short
      else Got(Frame(s[0], s[HEADER..HEADER + n]), s[HEADER + n..])
  }

  /** A written frame reads back, and leaves exactly what followed it. */
  lemma ReadEncoded(f: Frame, rest: bytes)
    requires Fits(f)
    ensures ReadFrame(Encode(f) + rest) == Got(f, rest)
  {
    var s := Encode(f) + rest;
    assert s[1..HEADER] == PutU32(|f.payload|);
    U32RoundTrip(|f.payload|);
    assert s[HEADER..HEADER + |f.payload|] == f.payload;
    assert s[HEADER + |f.payload|..] == rest;
  }

  /** A frame cut anywhere before its last byte is never mistaken for one. */
  lemma ReadCut(f: Frame, cut: bytes)
    requires Fits(f) && cut <= Encode(f) && |cut| < |Encode(f)|
    ensures ReadFrame(cut) == Short
  {
    if |cut| >= HEADER {
      assert cut[1..HEADER] == Encode(f)[1..HEADER] == PutU32(|f.payload|);
      U32RoundTrip(|f.payload|);
    }
  }

  /** Conversely, whatever ReadFrame accepts is the encoding of what it returns. */
  lemma ReadIsEncoding(s: bytes)
    requires ReadFrame(s).Got?
    ensures s == Encode(ReadFrame(s).frame) + ReadFrame(s).rest
  {
    var f := ReadFrame(s).frame;
    var b := s[1..HEADER];
    assert U32(b) == |f.payload|;
    assert PutU32(U32(b)) == b;
    assert s == [s[0]] + b + s[HEADER..];
  }

  // ---- Frame sequences ----

  function EncodeAll(fs: seq<Frame>): bytes
    requires AllFit(fs)
  {
    if fs == [] then [] else Encode(fs[0]) + EncodeAll(fs[1..])
  }

  /** Repeated ReadFrame: the frames read before the first failure, and how it failed. */
  datatype Decoded = Decoded(frames: seq<Frame>, rest: bytes, end: ReadResult)

  function ReadAll(s: bytes): Decoded
    decreases |s|
  {
    match ReadFrame(s)
    case Got(f, rest) =>
      var tail := ReadAll(rest);
      Decoded([f] + tail.frames, tail.rest, tail.end)
    case bad => Decoded([], s, bad)
  }

  /** The frames of fs that lie wholly within the first n bytes of their encoding. */
  function Whole(fs: seq<Frame>, n: nat): (w: seq<Frame>)
    requires AllFit(fs)
    ensures |w| <= |fs| && w == fs[..|w|]
  {
    if fs == [] || n < |Encode(fs[0])| then []
    else [fs[0]] + Whole(fs[1..], n - |Encode(fs[0])|)
  }

  /** A prefix of a concatenation either ends within the first part or covers it. */
  lemma PrefixSplit(a: bytes, b: bytes, cut: bytes)
    requires cut <= a + b
    ensures |cut| < |a| ==> cut <= a
    ensures |a| <= |cut| ==> cut == a + cut[|a|..] && cut[|a|..] <= b
  {
    if |cut| < |a| {
      assert cut == (a + b)[..|cut|] == a[..|cut|];
    } else {
      assert cut == (a + b)[..|cut|] == a + b[..|cut| - |a|];
    }
  }

  /** Cutting a frame stream at any byte yields exactly the wholly contained
      frames, then a short read: never a wrong frame, never an oversize error. */
  lemma {:induction false} ReadPrefix(fs: seq<Frame>, cut: bytes)
    requires AllFit(fs) && cut <= EncodeAll(fs)
    ensures ReadAll(cut).frames == Whole(fs, |cut|)
    ensures ReadAll(cut).end == Short
    decreases |fs|
  {
    if fs != [] {
      PrefixSplit(Encode(fs[0]), EncodeAll(fs[1..]), cut);
      if |cut| < |Encode(fs[0])| {
        ReadCut(fs[0], cut);
      } else {
        var rest := cut[|Encode(fs[0])|..];
        ReadEncoded(fs[0], rest);
        ReadPrefix(fs[1..], rest);
      }
    }
  }

  /** Every frame is wholly there exactly when every byte is. */
  lemma {:induction false} WholeIff(fs: seq<Frame>, n: nat)
    requires AllFit(fs) && n <= |EncodeAll(fs)|
    ensures Whole(fs, n) == fs <==> n == |EncodeAll(fs)|
  {
    if fs != [] && |Encode(fs[0])| <= n {
      WholeIff(fs[1..], n - |Encode(fs[0])|);
      assert fs == [fs[0]] + fs[1..];
    }
  }

  lemma {:induction false} EncodeAllConcat(a: seq<Frame>, b: seq<Frame>)
    requires AllFit(a) && AllFit(b)
    ensures AllFit(a + b) && EncodeAll(a + b) == EncodeAll(a) + EncodeAll(b)
  {
    if a == [] {
      assert a + b == b;
    } else {
      EncodeAllConcat(a[1..], b);
      assert (a + b)[0] == a[0] && (a + b)[1..] == a[1..] + b;
      assert EncodeAll(a + b) == Encode(a[0]) + (EncodeAll(a[1..]) + EncodeAll(b));
    }
  }

  lemma EncodeAllSnoc(a: seq<Frame>, f: Frame)
    requires AllFit(a) && Fits(f)
    ensures AllFit(a + [f]) && EncodeAll(a + [f]) == EncodeAll(a) + Encode(f)
  {
    EncodeAllConcat(a, [f]);
    assert EncodeAll([f]) == Encode(f) + EncodeAll([]);
  }

  /** Full round trip, the payload bytes being arbitrary. */
  lemma ReadAllEncoded(fs: seq<Frame>)
    requires AllFit(fs)
    ensures ReadAll(EncodeAll(fs)).frames == fs && ReadAll(EncodeAll(fs)).end == Short
  {
    ReadPrefix(fs, EncodeAll(fs));
    WholeIff(fs, |EncodeAll(fs)|);
  }

  /** The payload bytes of one kind, in order. */
  function Payloads(fs: seq<Frame>, kind: byte): bytes {
    if fs == [] then []
    else
      var last := fs[|fs| - 1];
      var before := Payloads(fs[..|fs| - 1], kind);
      if last.kind == kind then before + last.payload else before
  }

  lemma PayloadsSnoc(fs: seq<Frame>, f: Frame)
    ensures Payloads(fs + [f], f.kind) == Payloads(fs, f.kind) + f.payload
    ensures forall kind: byte :: kind != f.kind ==> Payloads(fs + [f], kind) == Payloads(fs, kind)
  {
    assert (fs + [f])[..|fs|] == fs;
  }

  lemma {:induction false} PayloadsPrefix(fs: seq<Frame>, k: nat, kind: byte)
    requires k <= |fs|
    ensures Payloads(fs[..k], kind) <= Payloads(fs, kind)
    decreases |fs| - k
  {
    if k < |fs| {
      assert fs[..k + 1] == fs[..k] + [fs[k]];
      PayloadsSnoc(fs[..k], fs[k]);
      PayloadsPrefix(fs, k + 1, kind);
    } else {
      assert fs[..k] == fs;
    }
  }

  // ---- The exit frame ----

  /** Go's uint32(code) conversion wraps. */
  function ToU32(code: int): (n: nat)
    ensures n < TWO32
  {
    code % TWO32
  }

  /** Go's int32(n) conversion reinterprets the top bit as the sign. */
  function ToI32(n: nat): int
    requires n < TWO32
  {
    if n < TWO31 then n else n - TWO32
  }

  function ExitFrame(code: int): (f: Frame)
    ensures Fits(f)
  {
    Frame(EXIT, PutU32(ToU32(code)))
  }

  function ExitCode(payload: bytes): int {
    if |payload| < 4 then 1 else ToI32(U32(payload[..4]))
  }

  /** The code read back is always congruent to the code written, and equal to
      it exactly when it is a 32-bit signed value, negatives included. */
  lemma ExitCodeRoundTrip(code: int)
    ensures (ExitCode(ExitFrame(code).payload) - code) % TWO32 == 0
    ensures ExitCode(ExitFrame(code).payload) == code <==> -TWO31 <= code < TWO31
  {
    var n := ToU32(code);
    U32RoundTrip(n);
    assert PutU32(n)[..4] == PutU32(n);
    assert (n - code) % TWO32 == 0;
    assert ToI32(n) == n || ToI32(n) == n - TWO32;
  }
}
