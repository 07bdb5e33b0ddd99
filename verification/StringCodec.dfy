/** Length-prefixed strings (binary.go): two bytes of length, a transport byte in one of the two
    formats, then the message.  The length is converted to 16 bits, the message is not cut. */
module StringCodec {
  import opened Options
  import opened Streams

  /** tag is the transport byte, or empty. */
  function Encode(tag: seq<byte>, message: seq<byte>): seq<byte> {
    BE16(|message| % 0x1_0000) + tag + message
  }

  /** On the wire a message is its length modulo 65536 in two bytes, high byte first, its transport
      byte if the format has one, and its bytes, all of them. */
  lemma WireFormat(tag: seq<byte>, message: seq<byte>)
    ensures var n := |message| % 65536; Encode(tag, message) == [n / 256, n % 256] + tag + message
  {
  }

  datatype Received = Received(tag: seq<byte>, message: seq<byte>, rest: seq<byte>)

  /** What a receiver makes of a stream; None when the stream ends too early. */
  function Decode(k: nat, bytes: seq<byte>): Option<Received> {
    if |bytes| < 2 + k then None
    else
      var n := 2 + k + From16(bytes[..2]);
      if |bytes| < n then None else Some(Received(bytes[2..2 + k], bytes[2 + k..n], bytes[n..]))
  }

  /** Receiving after sending: the first length-modulo-65536 bytes, and exactly the rest stays. */
  lemma Exchange(tag: seq<byte>, message: seq<byte>, rest: seq<byte>)
    ensures var n := |message| % 0x1_0000;
      Decode(|tag|, Encode(tag, message) + rest) == Some(Received(tag, message[..n], message[n..] + rest))
  {
    var n, k, bytes := |message| % 0x1_0000, |tag|, Encode(tag, message) + rest;
    RoundTrip16(n);
    assert bytes[..2] == BE16(n) && bytes[2..2 + k] == tag;
    assert bytes[2 + k..2 + k + n] == message[..n] && bytes[2 + k + n..] == message[n..] + rest;
  }

  /** A message arrives intact, with the stream left behind it, exactly when its length fits. */
  lemma IntactWhenShort(tag: seq<byte>, message: seq<byte>, rest: seq<byte>)
    ensures Decode(|tag|, Encode(tag, message) + rest) == Some(Received(tag, message, rest)) <==> |message| <= 65535
  {
    Exchange(tag, message, rest);
  }

  function EncodeAll(messages: seq<(seq<byte>, seq<byte>)>): seq<byte> {
    if messages == [] then [] else Encode(messages[0].0, messages[0].1) + EncodeAll(messages[1..])
  }

  function DecodeAll(k: nat, bytes: seq<byte>): seq<(seq<byte>, seq<byte>)>
    decreases |bytes|
  {
    match Decode(k, bytes)
    case None => []
    case Some(r) => [(r.tag, r.message)] + DecodeAll(k, r.rest)
  }

  /** Any list of short messages is received as sent. */
  lemma {:induction false} ListRoundTrip(k: nat, messages: seq<(seq<byte>, seq<byte>)>)
    requires forall i :: 0 <= i < |messages| ==> |messages[i].0| == k && |messages[i].1| <= 65535
    ensures DecodeAll(k, EncodeAll(messages)) == messages
  {
    if messages == [] {
    } else {
      IntactWhenShort(messages[0].0, messages[0].1, EncodeAll(messages[1..]));
      ListRoundTrip(k, messages[1..]);
    }
  }

  /** SendBinaryString and SendBinaryTransportString.  A connection's Write reports an error
      unless it wrote everything. */
  method Send(conn: Sink, tag: seq<byte>, message: seq<byte>) returns (ok: bool)
    modifies conn
    ensures old(conn.written) <= conn.written <= old(conn.written) + Encode(tag, message)
    ensures ok <==> conn.written == old(conn.written) + Encode(tag, message)
    ensures ok <==> conn.failures == old(conn.failures)
  {
    var headerSize := 2 + |tag|;
    var buf := new byte[headerSize + |message|];
    PutUint16(buf, |message| % 0x1_0000);
    ghost var prefix := buf[..2];
    forall i | 0 <= i < |tag| { buf[2 + i] := tag[i]; }
    forall i | 0 <= i < |message| { buf[headerSize + i] := message[i]; }
    assert buf[..2] == prefix && buf[2..headerSize] == tag && buf[headerSize..] == message;
    assert buf[..] == Encode(tag, message);
    var w;
    ok, w := conn.WriteAll(buf[..]);
  }

  /** The decoder as reading a header and then the message. */
  lemma DecodeParts(k: nat, bytes: seq<byte>)
    requires |bytes| >= 2 + k
    ensures var n := From16(bytes[..2]); var body := bytes[2 + k..];
      Decode(k, bytes) == if |body| < n then None else Some(Received(bytes[..2 + k][2..], body[..n], body[n..]))
  {
    var n := From16(bytes[..2]);
    assert bytes[..2 + k][2..] == bytes[2..2 + k];
    if |bytes| >= 2 + k + n {
      assert bytes[2 + k..][..n] == bytes[2 + k..2 + k + n];
      assert bytes[2 + k..][n..] == bytes[2 + k + n..];
    }
  }

  /** ReceiveBinaryString and ReceiveBinaryTransportString, for a header of 2 + k bytes. */
  method Receive(conn: Source, k: nat) returns (result: Option<(seq<byte>, seq<byte>)>)
    modifies conn
    ensures match Decode(k, old(conn.Rest()))
      case None => result == None
      case Some(r) => result == Some((r.tag, r.message)) && conn.Rest() == r.rest
  {
    ghost var all := conn.Rest();
    var header := new byte[2 + k];
    var ok := conn.ReadFull(header, 2 + k);
    if !ok { return None; }
    ghost var body := conn.Rest();
    var lenBuf := header[..];
    assert lenBuf == all[..2 + k] && body == all[2 + k..] && lenBuf[..2] == all[..2];
    DecodeParts(k, all);
    var messageLength := From16(lenBuf[..2]);
    var messageBuf := new byte[messageLength];
    ok := conn.ReadFull(messageBuf, messageLength);
    if !ok { return None; }
    assert messageBuf[..] == body[..messageLength];
    return Some((lenBuf[2..], messageBuf[..]));
  }
}
