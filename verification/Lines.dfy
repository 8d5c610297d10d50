/** Cutting a byte stream into whole lines. */
module Lines {
  import opened Prelude
  import opened Frames

  /** The complete lines of a text, newline included, and what follows the last. */
  datatype Cut = Cut(lines: seq<bytes>, tail: bytes)

  /** One more byte. */
  function Push(c: Cut, b: byte): Cut {
    if b == NEWLINE then Cut(c.lines + [c.tail + [b]], []) else Cut(c.lines, c.tail + [b])
  }

  /** More text after c. */
  function Extend(c: Cut, text: bytes): Cut
    decreases |text|
  {
    if text == [] then c else Extend(Push(c, text[0]), text[1..])
  }

  function Split(text: bytes): Cut {
    Extend(Cut([], []), text)
  }

  lemma {:induction false} ExtendConcat(c: Cut, a: bytes, b: bytes)
    ensures Extend(c, a + b) == Extend(Extend(c, a), b)
    decreases |a|
  {
    if a == [] {
      assert a + b == b;
    } else {
      assert (a + b)[1..] == a[1..] + b;
      ExtendConcat(Push(c, a[0]), a[1..], b);
    }
  }

  /** Earlier lines are never touched again. */
  lemma {:induction false} ExtendShift(lines: seq<bytes>, tail: bytes, text: bytes)
    ensures Extend(Cut(lines, tail), text)
         == Cut(lines + Extend(Cut([], tail), text).lines, Extend(Cut([], tail), text).tail)
    decreases |text|
  {
    if text == [] {
      assert lines + [] == lines;
    } else if text[0] == NEWLINE {
      var line := tail + [text[0]];
      ExtendShift(lines + [line], [], text[1..]);
      ExtendShift([line], [], text[1..]);
      assert [] + [line] == [line];
      assert lines + [line] + Extend(Cut([], []), text[1..]).lines
          == lines + ([line] + Extend(Cut([], []), text[1..]).lines);
    } else {
      ExtendShift(lines, tail + [text[0]], text[1..]);
    }
  }

  lemma {:induction false} ExtendPlain(c: Cut, text: bytes)
    requires NEWLINE !in text
    ensures Extend(c, text) == Cut(c.lines, c.tail + text)
    decreases |text|
  {
    if text == [] {
      assert c.tail + [] == c.tail;
    } else {
      ExtendPlain(Push(c, text[0]), text[1..]);
      assert c.tail + [text[0]] + text[1..] == c.tail + text;
    }
  }

  /** Up to and including the first newline, at i. */
  lemma ExtendLine(c: Cut, text: bytes, i: nat)
    requires i < |text| && text[i] == NEWLINE && NEWLINE !in text[..i]
    ensures Extend(c, text) == Extend(Cut(c.lines + [c.tail + text[..i + 1]], []), text[i + 1..])
  {
    assert text == text[..i] + text[i..];
    ExtendConcat(c, text[..i], text[i..]);
    ExtendPlain(c, text[..i]);
    assert c.tail + text[..i] + [text[i]] == c.tail + text[..i + 1];
    assert text[i..][1..] == text[i + 1..];
  }

  // ---- What Split means, independently of how it goes through the text ----

  predicate IsLine(l: bytes) {
    l != [] && l[|l| - 1] == NEWLINE && NEWLINE !in l[..|l| - 1]
  }

  ghost predicate IsCutOf(c: Cut, text: bytes) {
    && (forall i :: 0 <= i < |c.lines| ==> IsLine(c.lines[i]))
    && NEWLINE !in c.tail
    && Flatten(c.lines) + c.tail == text
  }

  lemma {:induction false} ExtendIsCut(c: Cut, done: bytes, text: bytes)
    requires IsCutOf(c, done)
    ensures IsCutOf(Extend(c, text), done + text)
    decreases |text|
  {
    if text == [] {
      assert done + [] == done;
    } else {
      FlattenSnoc(c.lines, c.tail + [text[0]]);
      var line := c.tail + [text[0]];
      assert line[..|line| - 1] == c.tail;
      assert Flatten(c.lines) + (c.tail + [text[0]]) == done + [text[0]];
      assert done + [text[0]] + [] == done + [text[0]];
      ExtendIsCut(Push(c, text[0]), done + [text[0]], text[1..]);
      assert done + [text[0]] + text[1..] == done + text;
    }
  }

  lemma SplitIsCut(text: bytes)
    ensures IsCutOf(Split(text), text)
  {
    ExtendIsCut(Cut([], []), [], text);
    assert [] + text == text;
  }

  /** There is only one way to cut a text into lines. */
  lemma {:induction false} CutIsUnique(c: Cut, text: bytes)
    requires IsCutOf(c, text)
    ensures c == Split(text)
    decreases |c.lines|
  {
    if c.lines == [] {
      ExtendPlain(Cut([], []), text);
    } else {
      var l, rest := c.lines[0], c.lines[1..];
      var text' := Flatten(rest) + c.tail;
      assert text == l + text';
      CutIsUnique(Cut(rest, c.tail), text');
      FirstLine(l, text');
      assert c.lines == [l] + rest;
    }
  }

  /** A line in front of a text is its first line. */
  lemma FirstLine(l: bytes, text: bytes)
    requires IsLine(l)
    ensures Split(l + text) == Cut([l] + Split(text).lines, Split(text).tail)
  {
    var all := l + text;
    assert all[|l| - 1] == NEWLINE && all[..|l| - 1] == l[..|l| - 1];
    ExtendLine(Cut([], []), all, |l| - 1);
    assert all[..|l| - 1 + 1] == l && all[|l| - 1 + 1..] == text;
    var none: seq<bytes>, empty: bytes := [], [];
    assert empty + l == l;
    assert none + [empty + l] == [l];
    ExtendShift([l], [], text);
  }
}
