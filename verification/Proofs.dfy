/** The key-bound proofs each end sends, with HMAC as a free symbolic function. */
module Proofs {
  import opened Frames

  type Key = bytes

  const BINDING_LEN: nat := 32

  // "knit client" and "knit server", in ASCII
  const CLIENT: bytes := [0x6b, 0x6e, 0x69, 0x74, 0x20, 0x63, 0x6c, 0x69, 0x65, 0x6e, 0x74]
  const SERVER: bytes := [0x6b, 0x6e, 0x69, 0x74, 0x20, 0x73, 0x65, 0x72, 0x76, 0x65, 0x72]

  /** What may stand in a proof field: an HMAC, or anything else. */
  datatype Proof = Mac(key: Key, msg: bytes) | Junk(text: bytes)

  function Message(role: bytes, nonce: bytes, cb: bytes): bytes {
    role + [0] + nonce + [0] + cb
  }

  function ClientProof(key: Key, nonce: bytes, cb: bytes): Proof {
    Mac(key, Message(CLIENT, nonce, cb))
  }

  function ServerProof(key: Key, nonce: bytes, cb: bytes): Proof {
    Mac(key, Message(SERVER, nonce, cb))
  }

  /** hash.Hash, as hmac.New returns it. */
  class Hmac {
    const key: Key
    var fed: bytes

    constructor (key: Key)
      ensures this.key == key && fed == []
    {
      this.key, fed := key, [];
    }

    method Write(p: bytes)
      modifies this
      ensures fed == old(fed) + p
    {
      fed := fed + p;
    }

    method Sum() returns (tag: Proof)
      ensures tag == Mac(key, fed)
    {
      return Mac(key, fed);
    }
  }

  method Prove(key: Key, role: bytes, nonce: bytes, cb: bytes) returns (tag: Proof)
    ensures tag == Mac(key, Message(role, nonce, cb))
  {
    var m := new Hmac(key);
    m.Write(role);
    m.Write([0]);
    m.Write(nonce);
    m.Write([0]);
    m.Write(cb);
    tag := m.Sum();
    assert [] + role == role;
  }

  predicate ZeroFree(s: bytes) {
    0 !in s
  }

  lemma {:induction false} FirstZero(a: bytes, x: bytes, b: bytes, y: bytes)
    requires ZeroFree(a) && ZeroFree(b) && a + [0] + x == b + [0] + y
    ensures a == b && x == y
    decreases |a|
  {
    var s := a + [0] + x;
    assert s[|a|] == 0;
    assert s == b + [0] + y && s[|b|] == 0;
    if |a| < |b| || |b| < |a| {
      assert false;
    }
    assert a == s[..|a|] == b;
    assert x == s[|a| + 1..] == y;
  }

  /** The proof texts name their parts unambiguously, whatever bytes the nonce
      holds (zeros too): the labels are zero-free and the binding has fixed length. */
  lemma MessageInjective(l: bytes, n: bytes, cb: bytes, l': bytes, n': bytes, cb': bytes)
    requires ZeroFree(l) && ZeroFree(l') && |cb| == BINDING_LEN && |cb'| == BINDING_LEN
    ensures Message(l, n, cb) == Message(l', n', cb') <==> l == l' && n == n' && cb == cb'
  {
    if Message(l, n, cb) == Message(l', n', cb') {
      var x, y := n + ([0] + cb), n' + ([0] + cb');
      assert Message(l, n, cb) == l + [0] + x;
      assert Message(l', n', cb') == l' + [0] + y;
      FirstZero(l, x, l', y);
      assert |n| == |n'|;
      assert n == x[..|n|] == n';
      assert cb == x[|n| + 1..] == cb';
    }
  }

  function InAscii(text: string): bytes
    requires forall i :: 0 <= i < |text| ==> text[i] < '\U{0080}'
  {
    seq(|text|, i requires 0 <= i < |text| => text[i] as int)
  }

  /** Which label each end's proof carries, in front of a zero. */
  lemma ProofLabels(key: Key, nonce: bytes, cb: bytes)
    ensures ClientProof(key, nonce, cb).key == key && ServerProof(key, nonce, cb).key == key
    ensures InAscii("knit client") + [0] <= ClientProof(key, nonce, cb).msg
    ensures InAscii("knit server") + [0] <= ServerProof(key, nonce, cb).msg
  {
    assert InAscii("knit client") == CLIENT;
    assert InAscii("knit server") == SERVER;
  }
}
