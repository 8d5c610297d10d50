/** The line-based control exchange that precedes streaming: requests, replies,
    the greeting, and reading one line from a buffered connection. */
module Control {
  import opened Prelude
  import opened Frames
  import opened FrameIO
  import opened Proofs

  const VERSION: int := 3
  // "KNIT1"
  const MAGIC: bytes := [0x4b, 0x4e, 0x49, 0x54, 0x31]

  datatype Op = Info | Run | Dial | Other(name: string)

  datatype Request = Request(v: int, hmac: Proof, op: Op, cmd: seq<string>, dir: bool, sync: bool, host: string)

  datatype Code = NoCode | Unauthorized | Version | EmptyCmd | Spawn | Internal

  datatype Envelope = Envelope(ok: bool, code: Code, proof: Proof, capacity: string)

  function Refusal(code: Code): Envelope {
    Envelope(false, code, Junk([]), "")
  }

  /** JSON marshalling, as functions and their partial inverses. */
  datatype Codec = Codec(
    encReq: Request -> bytes, decReq: bytes -> Option<Request>,
    encEnv: Envelope -> bytes, decEnv: bytes -> Option<Envelope>)

  predicate OneLine(text: bytes) {
    NEWLINE !in text
  }

  /** What the exchange needs of JSON: it decodes what it encoded, and a
      compact encoding holds no newline. */
  ghost predicate Faithful(c: Codec) {
    && (forall q :: c.decReq(c.encReq(q)) == Some(q) && OneLine(c.encReq(q)))
    && (forall e :: c.decEnv(c.encEnv(e)) == Some(e) && OneLine(c.encEnv(e)))
  }

  function Line(text: bytes): bytes {
    text + [NEWLINE]
  }

  datatype LineRead = GotLine(text: bytes, rest: bytes) | NoLine

  /** ReadString('\n'): up to and including the first newline, and no further. */
  function ReadLine(s: bytes): LineRead {
    if s == [] then NoLine
    else if s[0] == NEWLINE then GotLine([], s[1..])
    else
      match ReadLine(s[1..])
      case NoLine => NoLine
      case GotLine(text, rest) => GotLine([s[0]] + text, rest)
  }

  /** Whatever follows a line, newlines included, is left for the next reader;
      and ReadLine returns nothing but such a split. */
  lemma {:induction false} ReadLineSplits(s: bytes, text: bytes, rest: bytes)
    ensures ReadLine(s) == GotLine(text, rest) <==> OneLine(text) && s == Line(text) + rest
  {
    if s == [] {
      assert |Line(text) + rest| > 0;
    } else if text == [] {
      assert Line(text) + rest == [NEWLINE] + rest;
    } else {
      ReadLineSplits(s[1..], text[1..], rest);
      assert Line(text) + rest == [text[0]] + (Line(text[1..]) + rest);
      assert s == [s[0]] + s[1..] && text == [text[0]] + text[1..];
      if ReadLine(s) == GotLine(text, rest) {
        assert text[0] == s[0] != NEWLINE;
        assert text[1..] == ReadLine(s[1..]).text;
      }
    }
  }

  lemma {:induction false} NoLineIff(s: bytes)
    ensures ReadLine(s).NoLine? <==> OneLine(s)
  {
    if s != [] {
      NoLineIff(s[1..]);
      assert s == [s[0]] + s[1..];
    }
  }

  lemma ReadOwnLine(text: bytes, rest: bytes)
    requires OneLine(text)
    ensures ReadLine(Line(text) + rest) == GotLine(text, rest)
  {
    ReadLineSplits(Line(text) + rest, text, rest);
  }

  method ReadString(src: Source) returns (r: Option<bytes>)
    modifies src
    ensures match ReadLine(old(src.unread))
            case GotLine(text, rest) => r == Some(text) && src.unread == rest
            case NoLine => r == None && src.unread == []
  {
    var s := src.unread;
    var k := 0;
    while k < |s| && s[k] != NEWLINE
      invariant 0 <= k <= |s|
      invariant OneLine(s[..k])
    {
      k := k + 1;
    }
    if k < |s| {
      assert s == Line(s[..k]) + s[k + 1..];
      ReadLineSplits(s, s[..k], s[k + 1..]);
      src.unread := s[k + 1..];
      return Some(s[..k]);
    }
    src.unread := [];
    assert s[..k] == s;
    NoLineIff(s);
    return None;
  }

  // ---- The greeting ----

  /** The bytes of the white-space character s starts with, 0 if none: ASCII, then
      the UTF-8 forms of U+0085, U+00A0, U+1680, U+2000 to U+200A, U+2028, U+2029,
      U+202F, U+205F and U+3000. None of them can start inside another character. */
  function SpaceLen(s: bytes): (n: nat)
    ensures n <= |s|
  {
    if s == [] then 0
    else if 0x09 <= s[0] <= 0x0d || s[0] == 0x20 then 1
    else if |s| >= 2 && s[0] == 0xc2 && (s[1] == 0x85 || s[1] == 0xa0) then 2
    else if |s| >= 3 && WideSpace(s[0], s[1], s[2]) then 3
    else 0
  }

  predicate WideSpace(a: byte, b: byte, c: byte) {
    || (a == 0xe1 && b == 0x9a && c == 0x80)
    || (a == 0xe2 && b == 0x80 && (0x80 <= c <= 0x8a || c == 0xa8 || c == 0xa9 || c == 0xaf))
    || (a == 0xe2 && b == 0x81 && c == 0x9f)
    || (a == 0xe3 && b == 0x80 && c == 0x80)
  }

  /** No white space starts anywhere in s. */
  predicate Solid(s: bytes) {
    forall i :: 0 <= i < |s| ==> SpaceLen(s[i..]) == 0
  }

  /** strings.Fields; word is the field being read. */
  function Fields(s: bytes, word: bytes): seq<bytes>
    decreases |s|
  {
    var flushed := if word == [] then [] else [word];
    if s == [] then flushed
    else if SpaceLen(s) > 0 then flushed + Fields(s[SpaceLen(s)..], [])
    else Fields(s[1..], word + [s[0]])
  }

  /** Trimming first, as the source does, changes no field. */
  function ParseGreeting(line: bytes): Option<bytes> {
    var f := Fields(line, []);
    if |f| != 2 || f[0] != MAGIC then None else Some(f[1])
  }

  function Greeting(nonce: bytes): bytes {
    MAGIC + [0x20] + nonce
  }

  /** Text after a word that starts with ASCII, or nothing, completes no white space. */
  predicate Ascii(s: bytes) {
    s != [] ==> s[0] < 0x80
  }

  lemma SolidHead(s: bytes, rest: bytes)
    requires s != [] && Solid(s) && Ascii(rest)
    ensures SpaceLen(s + rest) == 0 && Solid(s[1..])
  {
    assert s[0..] == s && SpaceLen(s[0..]) == 0;
    var all := s + rest;
    assert all[0] == s[0];
    assert |s| >= 2 ==> all[1] == s[1];
    assert |s| >= 3 ==> all[2] == s[2];
    assert |s| == 1 && |rest| >= 1 ==> all[1] == rest[0];
    assert |s| == 2 && |rest| >= 1 ==> all[2] == rest[0];
    forall i | 0 <= i < |s[1..]| ensures SpaceLen(s[1..][i..]) == 0 {
      assert s[1..][i..] == s[i + 1..];
    }
  }

  lemma {:induction false} FieldsOfWord(s: bytes, word: bytes, rest: bytes)
    requires Solid(s) && Ascii(rest)
    ensures Fields(s + rest, word) == Fields(rest, word + s)
    decreases |s|
  {
    if s == [] {
      assert s + rest == rest && word + s == word;
    } else {
      SolidHead(s, rest);
      assert (s + rest)[1..] == s[1..] + rest && (s + rest)[0] == s[0];
      FieldsOfWord(s[1..], word + [s[0]], rest);
      assert word + [s[0]] + s[1..] == word + s;
    }
  }

  /** word is what has been read of a text since its last white space. */
  predicate Read(word: bytes, s: bytes) {
    forall i :: 0 <= i < |word| ==> SpaceLen((word + s)[i..]) == 0
  }

  lemma {:induction false} FieldsAreSolid(s: bytes, word: bytes)
    requires Read(word, s)
    ensures forall f :: f in Fields(s, word) ==> f != [] && Solid(f)
    decreases |s|
  {
    if s == [] || SpaceLen(s) > 0 {
      ReadIsSolid(word, s);
      if s != [] {
        FieldsAreSolid(s[SpaceLen(s)..], []);
      }
    } else {
      var next := word + [s[0]];
      assert next + s[1..] == word + s;
      assert (word + s)[|word|..] == s;
      FieldsAreSolid(s[1..], next);
    }
  }

  lemma ReadIsSolid(word: bytes, s: bytes)
    requires Read(word, s)
    ensures Solid(word)
  {
    forall i | 0 <= i < |word| ensures SpaceLen(word[i..]) == 0 {
      assert SpaceLen((word + s)[i..]) == 0;
      assert (word + s)[i..] == word[i..] + s;
    }
  }

  /** White space only. */
  predicate White(s: bytes)
    decreases |s|
  {
    s == [] || (SpaceLen(s) > 0 && White(s[SpaceLen(s)..]))
  }

  lemma SpaceInFront(s: bytes, more: bytes)
    requires SpaceLen(s) > 0
    ensures SpaceLen(s[..SpaceLen(s)] + more) == SpaceLen(s)
    ensures (s[..SpaceLen(s)] + more)[SpaceLen(s)..] == more
  {
    var n := SpaceLen(s);
    var t := s[..n] + more;
    assert forall i :: 0 <= i < n ==> t[i] == s[i];
  }

  lemma {:induction false} NoFieldsIsWhite(s: bytes)
    requires Fields(s, []) == []
    ensures White(s)
    decreases |s|
  {
    if s != [] {
      if SpaceLen(s) > 0 {
        NoFieldsIsWhite(s[SpaceLen(s)..]);
      } else {
        var none: bytes := [];
        assert none + [s[0]] == [s[0]];
        WordIsField(s[1..], [s[0]]);
      }
    }
  }

  lemma {:induction false} WordIsField(s: bytes, word: bytes)
    requires word != []
    ensures |Fields(s, word)| > 0
    decreases |s|
  {
    if s != [] && SpaceLen(s) == 0 {
      WordIsField(s[1..], word + [s[0]]);
    }
  }

  lemma WordEnds(s: bytes, word: bytes)
    requires word != [] && (s == [] || SpaceLen(s) > 0)
    ensures Fields(s, word) == [word] + Fields(s, [])
  {
    if s != [] {
      var none: seq<bytes> := [];
      var more := Fields(s[SpaceLen(s)..], []);
      assert Fields(s, []) == none + more == more;
      assert Fields(s, word) == [word] + more;
    }
  }

  /** What ends the word being read is white space or the end of the text; the other
      fields are those of what follows the word. */
  lemma {:induction false} WordThen(s: bytes, word: bytes) returns (first: bytes, rest: bytes)
    requires word != []
    ensures Fields(s, word) == [first] + Fields(rest, []) && word + s == first + rest
    ensures rest == [] || SpaceLen(rest) > 0
    decreases |s|
  {
    if s == [] || SpaceLen(s) > 0 {
      first, rest := word, s;
      WordEnds(s, word);
    } else {
      first, rest := WordThen(s[1..], word + [s[0]]);
      assert s == [s[0]] + s[1..];
      Assoc(word, [s[0]], s[1..]);
    }
  }

  lemma GapGrows(s: bytes, more: bytes, rest: bytes)
    requires SpaceLen(s) > 0 && s[SpaceLen(s)..] == more + rest && White(more)
    ensures White(s[..SpaceLen(s)] + more) && s[..SpaceLen(s)] + more != []
    ensures s == s[..SpaceLen(s)] + more + rest
  {
    var n := SpaceLen(s);
    SpaceInFront(s, more);
    Assoc(s[..n], more, rest);
    assert s == s[..n] + s[n..];
  }

  /** The first field of a text stands after white space, and is followed by white
      space or nothing; the other fields are those of what follows it. */
  lemma {:induction false} FirstField(s: bytes) returns (gap: bytes, rest: bytes)
    requires Fields(s, []) != []
    ensures s == gap + (Fields(s, [])[0] + rest) && White(gap) && (SpaceLen(s) > 0 ==> gap != [])
    ensures Fields(rest, []) == Fields(s, [])[1..] && (rest == [] || SpaceLen(rest) > 0)
    decreases |s|
  {
    var n := SpaceLen(s);
    if n > 0 {
      var more;
      more, rest := FirstField(s[n..]);
      gap := s[..n] + more;
      GapGrows(s, more, Fields(s, [])[0] + rest);
    } else {
      var none: bytes := [];
      var first;
      gap := none;
      first, rest := WordThen(s[1..], [s[0]]);
      assert s == [s[0]] + s[1..];
      assert none + [s[0]] == [s[0]];
      assert Fields(s, []) == [first] + Fields(rest, []);
    }
  }

  /** A text of two fields: white space, the first, white space, the second, white space. */
  lemma TwoFields(s: bytes, f: seq<bytes>) returns (a: bytes, b: bytes, c: bytes)
    requires f == Fields(s, []) && |f| == 2
    ensures s == a + (f[0] + (b + (f[1] + c)))
    ensures White(a) && White(b) && White(c) && b != []
  {
    var rest;
    a, rest := FirstField(s);
    assert Fields(rest, []) == [f[1]];
    b, c := FirstField(rest);
    NoFieldsIsWhite(c);
  }

  /** Only a line of the form "KNIT1 nonce", with white space around and between,
      is a greeting: a line whose first word is another one is refused. */
  lemma GreetingShape(line: bytes) returns (a: bytes, b: bytes, c: bytes)
    requires ParseGreeting(line).Some?
    ensures line == a + (InAscii("KNIT1") + (b + (ParseGreeting(line).value + c)))
    ensures White(a) && White(b) && White(c) && b != []
  {
    assert InAscii("KNIT1") == MAGIC;
    a, b, c := TwoFields(line, Fields(line, []));
  }

  lemma GreetingYields(nonce: bytes)
    requires nonce != [] && Solid(nonce)
    ensures ParseGreeting(Greeting(nonce)) == Some(nonce)
  {
    var rest: bytes := [0x20] + nonce;
    var none: bytes := [];
    MagicIsSolid();
    FieldsOfWord(MAGIC, none, rest);
    assert none + MAGIC == MAGIC;
    Assoc(MAGIC, [0x20], nonce);
    NonceField(nonce);
  }

  /** What follows the magic word is one more field. */
  lemma NonceField(nonce: bytes)
    requires nonce != [] && Solid(nonce)
    ensures Fields([0x20] + nonce, MAGIC) == [MAGIC] + [nonce]
  {
    var rest: bytes := [0x20] + nonce;
    var none: bytes := [];
    assert rest[1..] == nonce && SpaceLen(rest) == 1;
    FieldsOfWord(nonce, none, none);
    assert none + nonce == nonce && nonce + none == nonce;
    assert Fields(none, nonce) == [nonce];
  }

  lemma MagicIsSolid()
    ensures Solid(MAGIC)
  {
    forall i | 0 <= i < |MAGIC| ensures SpaceLen(MAGIC[i..]) == 0 {
      assert MAGIC[i..][0] == MAGIC[i];
    }
  }

  /** A greeting yields its nonce, and no greeting yields an empty nonce or one
      with white space in it. */
  lemma GreetingParses(nonce: bytes, line: bytes)
    ensures nonce != [] && Solid(nonce) ==> ParseGreeting(Greeting(nonce)) == Some(nonce)
    ensures ParseGreeting(line).Some? ==> ParseGreeting(line).value != [] && Solid(ParseGreeting(line).value)
  {
    FieldsAreSolid(line, []);
    assert ParseGreeting(line).Some? ==> Fields(line, [])[1] in Fields(line, []);
    if nonce != [] && Solid(nonce) {
      GreetingYields(nonce);
    }
  }
}
