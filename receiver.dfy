/**
 * The receiving side of the framing (`repartiteur.py`): read the 4-byte
 * length header, then accumulate packets until the declared length is
 * reached or the connection reaches end of stream, and store the bytes in
 * `Pipe-Filter/dataset.csv`.
 */
module Receiver {
  import opened Py
  import opened Framing

  /** The file the received bytes are written to. */
  const DatasetFile := "Pipe-Filter/dataset.csv"

  function Min(a: nat, b: nat): nat { if a <= b then a else b }

  /**
   * The client end of a TCP connection. `incoming` is everything the peer
   * writes before closing; `segment(k)` is how many bytes beyond the first
   * the network makes available to the `k`-th `recv` call. A `recv(n)`
   * returns the next bytes, at most `n` of them, and an empty packet only
   * once the stream is exhausted.
   */
  class Connection {
    const incoming: seq<byte>
    const segment: nat -> nat
    var consumed: nat
    var calls: nat

    ghost predicate Valid()
      reads this
    {
      consumed <= |incoming|
    }

    constructor (incoming: seq<byte>, segment: nat -> nat)
      ensures Valid()
      ensures this.incoming == incoming && this.segment == segment
      ensures consumed == 0 && calls == 0
    {
      this.incoming := incoming;
      this.segment := segment;
      consumed := 0;
      calls := 0;
    }

    /** `recv(n)` */
    method Recv(n: nat) returns (packet: seq<byte>)
      requires Valid()
      modifies this
      ensures Valid()
      ensures consumed == old(consumed) + Min(Min(n, 1 + segment(old(calls))), |incoming| - old(consumed))
      ensures calls == old(calls) + 1
      ensures packet == incoming[old(consumed)..consumed]
    {
      var size := Min(Min(n, 1 + segment(calls)), |incoming| - consumed);
      packet := incoming[consumed..consumed + size];
      consumed := consumed + size;
      calls := calls + 1;
    }
  }

  /** What the first `recv(4)` returns from a fresh connection. */
  function Header(incoming: seq<byte>, segment: nat -> nat): (h: seq<byte>)
    ensures |h| == Min(Min(4, 1 + segment(0)), |incoming|)
    ensures |h| <= 4 && h == incoming[..|h|]
  {
    incoming[..Min(Min(4, 1 + segment(0)), |incoming|)]
  }

  /**
   * The bytes the receiver ends up with: the declared number of bytes
   * after the header, or all remaining bytes when the stream ends first.
   */
  function Received(incoming: seq<byte>, segment: nat -> nat): (data: seq<byte>)
    ensures |data| <= BigEndian(Header(incoming, segment))
    ensures |Header(incoming, segment)| + |data| <= |incoming|
    ensures data == incoming[|Header(incoming, segment)|..|Header(incoming, segment)| + |data|]
    ensures |data| < BigEndian(Header(incoming, segment)) <==> |Header(incoming, segment)| + |data| == |incoming| < |Header(incoming, segment)| + BigEndian(Header(incoming, segment))
  {
    var h := Header(incoming, segment);
    incoming[|h|..|h| + Min(BigEndian(h), |incoming| - |h|)]
  }

  /**
   * Reads one framed payload from `conn` and writes it to the dataset
   * file. Each request asks for at most the bytes still missing, and the
   * loop stops at the declared length or on an empty packet.
   */
  method RecevoirDataset(conn: Connection, files: map<string, seq<byte>>)
    returns (files': map<string, seq<byte>>, declared: nat, data: seq<byte>)
    requires conn.Valid() && conn.consumed == 0 && conn.calls == 0
    modifies conn
    ensures conn.Valid()
    ensures declared == BigEndian(Header(conn.incoming, conn.segment))
    ensures data == Received(conn.incoming, conn.segment)
    ensures |data| < declared ==> conn.consumed == |conn.incoming|
    ensures files' == files[DatasetFile := data]
  {
    var header := conn.Recv(4);
    declared := BigEndian(header);
    data := [];
    while |data| < declared
      invariant conn.Valid()
      invariant header == Header(conn.incoming, conn.segment)
      invariant |data| <= declared
      invariant conn.consumed == |header| + |data|
      invariant data == conn.incoming[|header|..conn.consumed]
      decreases declared - |data|
    {
      var packet := conn.Recv(declared - |data|);
      if packet == [] {
        assert conn.consumed == |conn.incoming|;
        break;
      }
      data := data + packet;
    }
    files' := files[DatasetFile := data];
  }

  /**
   * The receiver inverts the dispatcher's framing: when the first `recv`
   * delivers the whole header, the stored bytes are exactly the payload,
   * whatever follows it on the stream.
   */
  lemma ReceiveFrame(payload: seq<byte>, rest: seq<byte>, segment: nat -> nat)
    requires Frame(payload).Some? && segment(0) >= 3
    ensures Header(Frame(payload).value + rest, segment) == Frame(payload).value[..4]
    ensures Received(Frame(payload).value + rest, segment) == payload
  {
    var w := Frame(payload).value;
    var s := w + rest;
    assert Header(s, segment) == s[..4] == w[..4];
    assert s[4..4 + |payload|] == w[4..] == payload;
  }
}
