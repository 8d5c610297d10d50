/** The frame writer and the frame reader as objects: a connection that accepts
    bytes until it fails, the writer's coalescing buffer, and a byte source. */
module FrameIO {
  import opened Prelude
  import opened Frames

  /** The largest payload joined with its header into one write. */
  const COALESCE: nat := 0x1_0000

  /** A connection that will accept budget more bytes and then fails for good. */
  class Conn {
    var accepted: bytes
    var budget: nat
    var closed: bool

    constructor (budget: nat)
      ensures accepted == [] && this.budget == budget && !closed
    {
      accepted, this.budget, closed := [], budget, false;
    }

    method Close()
      modifies this`closed
      ensures closed
    {
      closed := true;
    }

    method Write(p: bytes) returns (ok: bool)
      modifies this
      ensures ok == (|p| <= old(budget))
      ensures accepted == old(accepted) + p[..Min(old(budget), |p|)]
      ensures budget == old(budget) - Min(old(budget), |p|) && closed == old(closed)
    {
      var n := Min(budget, |p|);
      accepted, budget, ok := accepted + p[..n], budget - n, n == |p|;
    }
  }

  /** What a failed or successful write of b leaves on the connection. */
  twostate predicate Appends(c: Conn, b: bytes)
    reads c
  {
    && c.accepted == old(c.accepted) + b[..Min(old(c.budget), |b|)]
    && c.budget == old(c.budget) - Min(old(c.budget), |b|)
  }

  class FrameWriter {
    const conn: Conn
    const buf: array<byte>

    constructor (conn: Conn)
      ensures this.conn == conn && fresh(buf) && buf.Length == HEADER + COALESCE
    {
      this.conn := conn;
      this.buf := new byte[HEADER + COALESCE];
    }

    /** Emits one frame. Whichever path is taken, the connection gains the
        frame's encoding, cut where the connection died; the result is true
        exactly when all of it was accepted. An oversize payload writes nothing. */
    method Write(kind: byte, p: bytes) returns (ok: bool)
      requires buf.Length == HEADER + COALESCE
      modifies conn, buf
      ensures !Fits(Frame(kind, p)) ==> !ok && unchanged(conn)
      ensures Fits(Frame(kind, p)) ==>
                Appends(conn, Encode(Frame(kind, p))) && ok == (HEADER + |p| <= old(conn.budget))
    {
      if |p| > MAX_FRAME {
        return false;
      }
      var size := PutU32(|p|);
      buf[0], buf[1], buf[2], buf[3], buf[4] := kind, size[0], size[1], size[2], size[3];
      assert buf[..HEADER] == Encode(Frame(kind, p))[..HEADER];
      if |p| <= COALESCE {
        ok := WriteJoined(kind, p);
      } else {
        ok := WriteApart(kind, p);
      }
    }

    /** The payload is copied behind the header: one write. */
    method WriteJoined(kind: byte, p: bytes) returns (ok: bool)
      requires buf.Length == HEADER + COALESCE && |p| <= COALESCE
      requires buf[..HEADER] == Encode(Frame(kind, p))[..HEADER]
      modifies conn, buf
      ensures Appends(conn, Encode(Frame(kind, p))) && ok == (HEADER + |p| <= old(conn.budget))
    {
      forall i | 0 <= i < |p| {
        buf[HEADER + i] := p[i];
      }
      assert buf[..HEADER] == old(buf[..HEADER]);
      assert buf[HEADER..HEADER + |p|] == p;
      assert buf[..HEADER + |p|] == buf[..HEADER] + p == Encode(Frame(kind, p));
      ok := conn.Write(buf[..HEADER + |p|]);
    }

    /** A large payload goes out by itself, after the header. */
    method WriteApart(kind: byte, p: bytes) returns (ok: bool)
      requires buf.Length == HEADER + COALESCE && Fits(Frame(kind, p))
      requires buf[..HEADER] == Encode(Frame(kind, p))[..HEADER]
      modifies conn
      ensures Appends(conn, Encode(Frame(kind, p))) && ok == (HEADER + |p| <= old(conn.budget))
    {
      ghost var whole := Encode(Frame(kind, p));
      ok := conn.Write(buf[..HEADER]);
      if ok {
        label header:
        ok := conn.Write(p);
        assert whole[HEADER..] == p;
        TwoWrites(whole, old@header(conn.budget));
      } else {
        assert whole[..HEADER][..old(conn.budget)] == whole[..old(conn.budget)];
      }
    }

    method WriteExit(code: int) returns (ok: bool)
      requires buf.Length == HEADER + COALESCE
      modifies conn, buf
      ensures Appends(conn, Encode(ExitFrame(code)))
      ensures ok == (HEADER + 4 <= old(conn.budget))
    {
      ok := Write(EXIT, PutU32(ToU32(code)));
    }
  }

  /** The header's write followed by a possibly cut payload write is the cut whole. */
  lemma TwoWrites(whole: bytes, left: nat)
    requires HEADER <= |whole|
    ensures whole[..HEADER] + whole[HEADER..][..Min(left, |whole| - HEADER)]
         == whole[..Min(HEADER + left, |whole|)]
  {
  }

  /** The bytes a reader will still get before its read error. */
  class Source {
    var unread: bytes

    constructor (unread: bytes)
      ensures this.unread == unread
    {
      this.unread := unread;
    }

    /** io.ReadFull */
    method ReadFull(n: nat) returns (ok: bool, b: bytes)
      modifies this
      ensures ok == (n <= |old(unread)|)
      ensures ok ==> b == old(unread)[..n] && unread == old(unread)[n..]
      ensures !ok ==> unread == []
    {
      if n <= |unread| {
        ok, b, unread := true, unread[..n], unread[n..];
      } else {
        ok, b, unread := false, [], [];
      }
    }

    /** Reads one frame, refusing a declared length above the cap before reading
        any payload. */
    method ReadFrame() returns (r: Option<Frame>)
      modifies this
      ensures match Frames.ReadFrame(old(unread))
              case Got(f, rest) => r == Some(f) && unread == rest
              case _ => r == None && |unread| <= |old(unread)|
    {
      var ok, hdr := ReadFull(HEADER);
      if !ok {
        return None;
      }
      assert hdr[1..] == old(unread)[1..HEADER];
      var n := U32(hdr[1..]);
      if n > MAX_FRAME {
        return None;
      }
      var p: bytes;
      ok, p := ReadFull(n);
      if !ok {
        return None;
      }
      assert old(unread)[HEADER..][n..] == old(unread)[HEADER + n..];
      assert p == old(unread)[HEADER..HEADER + n];
      return Some(Frame(hdr[0], p));
    }
  }
}
