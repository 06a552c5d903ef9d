/**
 * The wire format shared by the dispatcher and the receiver: a payload is
 * preceded by its length as a 4-byte big-endian unsigned integer.
 */
module Framing {
  import opened Py

  newtype byte = x: int | 0 <= x < 256

  /** `to_bytes(4, ...)` raises `OverflowError` from this length on. */
  const LengthLimit: nat := 0x1_0000_0000

  /** `int.from_bytes(b, byteorder='big')`; the empty sequence reads as 0. */
  function BigEndian(b: seq<byte>): nat
  {
    if b == [] then 0 else BigEndian(b[..|b| - 1]) * 256 + b[|b| - 1] as nat
  }

  /** The value of a 4-byte header, written out by place value. */
  lemma BigEndianFour(b: seq<byte>)
    requires |b| == 4
    ensures BigEndian(b) == ((b[0] as nat * 256 + b[1] as nat) * 256 + b[2] as nat) * 256 + b[3] as nat
  {
    var b3, b2, b1 := b[..3], b[..3][..2], b[..3][..2][..1];
    assert b3 == [b[0], b[1], b[2]] && b2 == [b[0], b[1]] && b1 == [b[0]] && b1[..0] == [];
    assert BigEndian(b1) == b[0] as nat;
    assert BigEndian(b2) == b[0] as nat * 256 + b[1] as nat;
    assert BigEndian(b3) == BigEndian(b2) * 256 + b[2] as nat;
  }

  /** `n.to_bytes(4, byteorder='big')`, most significant byte first. */
  function EncodeLength(n: nat): (r: seq<byte>)
    requires n < LengthLimit
    ensures |r| == 4
    ensures BigEndian(r) == n
  {
    var q1 := n / 256;
    var q2 := q1 / 256;
    var q3 := q2 / 256;
    var r := [q3 as byte, (q2 % 256) as byte, (q1 % 256) as byte, (n % 256) as byte];
    BigEndianFour(r);
    r
  }

  /** Four bytes hold every length below the limit, so decoding then encoding gives the bytes back. */
  lemma EncodeBigEndian(b: seq<byte>)
    requires |b| == 4
    ensures BigEndian(b) < LengthLimit
    ensures EncodeLength(BigEndian(b)) == b
  {
    BigEndianFour(b);
    var n := BigEndian(b);
    assert n / 256 == (b[0] as nat * 256 + b[1] as nat) * 256 + b[2] as nat;
    assert n / 256 / 256 == b[0] as nat * 256 + b[1] as nat;
    assert n / 256 / 256 / 256 == b[0] as nat;
  }

  /**
   * The bytes `envoyer_dataframe` writes for a payload: the header then the
   * payload, or nothing when the length does not fit in the header.
   */
  function Frame(payload: seq<byte>): (r: Option<seq<byte>>)
    ensures r.Some? <==> |payload| < LengthLimit
    ensures r.Some? ==> |r.value| == 4 + |payload| && r.value[4..] == payload
    ensures r.Some? ==> BigEndian(r.value[..4]) == |payload|
  {
    if |payload| < LengthLimit then
      var w := EncodeLength(|payload|) + payload;
      assert w[..4] == EncodeLength(|payload|);
      Some(w)
    else None
  }

  /** Two payloads that frame to the same bytes are the same payload. */
  lemma FrameInjective(p: seq<byte>, q: seq<byte>)
    requires Frame(p).Some? && Frame(p) == Frame(q)
    ensures p == q
  {
    assert p == Frame(p).value[4..];
  }
}
