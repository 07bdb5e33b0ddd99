/** The copy loops between a local connection and a tunnel (the three connection handlers):
    TCP to TCP or QUIC, TCP to websocket and websocket to TCP. */
module Relay {
  import opened Streams

  const WS_BUFFER := 16 * 1024

  /** transferData with a buffer of 32 KB, q1transferData with 16 KB.  Both streams may break at
      any moment: what was delivered is a prefix of what was read, all of it when the reader ended
      first, except for the bytes that came together with its end, which the loop drops; so the
      relay is complete exactly when the end comes by itself.  The recorded usage lags behind by
      at most one buffer. */
  method TransferData(from: Source, to: Sink, bufferSize: nat)
    returns (drained: bool, usage: nat, dropped: seq<byte>)
    requires bufferSize > 0
    modifies from, to
    ensures old(to.written) <= to.written <= old(to.written) + old(from.Rest())
    ensures drained ==> to.written + dropped == old(to.written) + old(from.Rest())
    ensures drained ==> (dropped == [] <==> old(from.last) == []) && |dropped| <= bufferSize
    ensures drained ==> usage == |to.written| - |old(to.written)|
    ensures drained <==> to.failures == old(to.failures)
    ensures usage <= |to.written| - |old(to.written)| <= usage + bufferSize
  {
    usage := 0;
    ghost var total := to.written + from.Rest();
    while true
      invariant old(to.written) <= to.written && to.written + from.Rest() == total
      invariant usage == |to.written| - |old(to.written)|
      invariant (from.last == [] <==> old(from.last) == []) && to.failures == old(to.failures)
      decreases |from.chunks|, |from.Rest()|
    {
      ghost var before := to.written;
      var more, data := from.Read(bufferSize);
      assert total == before + (data + from.Rest()) == (before + data) + from.Rest();
      if !more { return true, usage, data; }
      var ok, totalWritten := to.WriteAll(data);
      assert data == data[..totalWritten] + data[totalWritten..];
      if !ok {
        assert before + data[..totalWritten] <= (before + data) + from.Rest();
        return false, usage, [];
      }
      assert data[..totalWritten] == data;
      usage := usage + totalWritten;
    }
  }

  /** A websocket connection as a writer: messages go out whole or the write fails. */
  class MessageSink {
    var messages: seq<seq<byte>>
    var script: seq<bool>
    var failures: nat

    constructor (script: seq<bool>)
      ensures messages == [] && this.script == script && failures == 0
    {
      messages, this.script, failures := [], script, 0;
    }

    method WriteMessage(data: seq<byte>) returns (ok: bool)
      modifies this
      ensures messages == if ok then old(messages) + [data] else old(messages)
      ensures failures == if ok then old(failures) else old(failures) + 1
    {
      ok := script != [] && script[0];
      script := if script == [] then [] else script[1..];
      if ok { messages := messages + [data]; } else { failures := failures + 1; }
    }
  }

  /** transferTCPToWebSocket: one message per read. */
  method TcpToWebSocket(tcp: Source, ws: MessageSink) returns (drained: bool, usage: nat, dropped: seq<byte>)
    modifies tcp, ws
    ensures Flatten(old(ws.messages)) <= Flatten(ws.messages) <= Flatten(old(ws.messages)) + old(tcp.Rest())
    ensures drained ==> Flatten(ws.messages) + dropped == Flatten(old(ws.messages)) + old(tcp.Rest())
    ensures drained ==> (dropped == [] <==> old(tcp.last) == [])
    ensures drained <==> ws.failures == old(ws.failures)
    ensures usage == |Flatten(ws.messages)| - |Flatten(old(ws.messages))|
    ensures old(ws.messages) <= ws.messages
    ensures forall i :: |old(ws.messages)| <= i < |ws.messages| ==> |ws.messages[i]| <= WS_BUFFER
  {
    usage := 0;
    ghost var start, total := Flatten(ws.messages), Flatten(ws.messages) + tcp.Rest();
    while true
      invariant start <= Flatten(ws.messages) && Flatten(ws.messages) + tcp.Rest() == total
      invariant usage == |Flatten(ws.messages)| - |start|
      invariant (tcp.last == [] <==> old(tcp.last) == []) && ws.failures == old(ws.failures)
      invariant old(ws.messages) <= ws.messages
      invariant forall i :: |old(ws.messages)| <= i < |ws.messages| ==> |ws.messages[i]| <= WS_BUFFER
      decreases |tcp.chunks|, |tcp.Rest()|
    {
      ghost var before := Flatten(ws.messages);
      var more, data := tcp.Read(WS_BUFFER);
      assert total == before + (data + tcp.Rest()) == (before + data) + tcp.Rest();
      if !more { return true, usage, data; }
      FlattenAppend(ws.messages, [data]);
      assert Flatten([data]) == data + Flatten([]) == data;
      var ok := ws.WriteMessage(data);
      if !ok { return false, usage, []; }
      usage := usage + |data|;
    }
  }

  /** A message received over the websocket; control messages are ignored by the relay. */
  datatype Message = Data(body: seq<byte>) | Control

  function Payload(messages: seq<Message>): seq<byte> {
    if messages == [] then []
    else (if messages[0].Data? then messages[0].body else []) + Payload(messages[1..])
  }

  /** transferWebSocketToTCP: one write per message. */
  method WebSocketToTcp(messages: seq<Message>, tcp: Sink) returns (drained: bool, usage: nat)
    modifies tcp
    ensures old(tcp.written) <= tcp.written <= old(tcp.written) + Payload(messages)
    ensures drained ==> tcp.written == old(tcp.written) + Payload(messages)
    ensures usage <= |tcp.written| - |old(tcp.written)| && (drained ==> usage == |tcp.written| - |old(tcp.written)|)
    ensures drained <==> tcp.failures == old(tcp.failures)
  {
    usage := 0;
    ghost var total := tcp.written + Payload(messages);
    var next := 0;
    while next < |messages|
      invariant next <= |messages| && old(tcp.written) <= tcp.written
      invariant tcp.written + Payload(messages[next..]) == total
      invariant usage == |tcp.written| - |old(tcp.written)| && tcp.failures == old(tcp.failures)
    {
      var message := messages[next];
      ghost var before := tcp.written;
      assert messages[next..][1..] == messages[next + 1..];
      next := next + 1;
      if message.Data? {
        assert total == before + (message.body + Payload(messages[next..]))
                     == (before + message.body) + Payload(messages[next..]);
        var ok, w := tcp.WriteAll(message.body);
        if !ok {
          assert before + message.body[..w] <= (before + message.body) + Payload(messages[next..]);
          return false, usage;
        }
        assert message.body[..w] == message.body;
        usage := usage + w;
      }
    }
    return true, usage;
  }

  function Bodies(messages: seq<Message>): seq<seq<byte>> {
    if messages == [] then []
    else (if messages[0].Data? then [messages[0].body] else []) + Bodies(messages[1..])
  }

  lemma {:induction false} PayloadOfBodies(messages: seq<Message>)
    ensures Payload(messages) == Flatten(Bodies(messages))
  {
    if messages == [] {
    } else {
      PayloadOfBodies(messages[1..]);
      if messages[0].Data? {
        assert Bodies(messages)[1..] == Bodies(messages[1..]);
      } else {
        assert Bodies(messages) == Bodies(messages[1..]);
      }
    }
  }

  /** The two websocket loops behind one another, when the data messages that arrived are a first
      part of those sent, with control messages between them: the bytes delivered are a prefix of
      the bytes read, whatever the message boundaries, and all of them once both loops have
      drained and everything has arrived, but for those that came together with the end. */
  method ThroughWebSocket(from: Source, ws: MessageSink, arrived: seq<Message>, to: Sink)
    returns (drained: bool, dropped: seq<byte>)
    requires ws.messages == [] && to.written == []
    modifies from, ws, to
    ensures Bodies(arrived) <= ws.messages ==> to.written <= old(from.Rest())
    ensures drained && Bodies(arrived) == ws.messages ==> to.written + dropped == old(from.Rest())
    ensures drained ==> (dropped == [] <==> old(from.last) == [])
    ensures drained <==> ws.failures == old(ws.failures) && to.failures == old(to.failures)
  {
    ghost var read := from.Rest();
    var readAll, usage;
    readAll, usage, dropped := TcpToWebSocket(from, ws);
    assert Flatten(ws.messages) <= read by { assert [] + read == read; }
    var wroteAll;
    wroteAll, usage := WebSocketToTcp(arrived, to);
    drained := readAll && wroteAll;
    PayloadOfBodies(arrived);
    assert to.written <= Payload(arrived) by { assert [] + Payload(arrived) == Payload(arrived); }
    if Bodies(arrived) <= ws.messages {
      assert Bodies(arrived) + ws.messages[|Bodies(arrived)|..] == ws.messages;
      FlattenAppend(Bodies(arrived), ws.messages[|Bodies(arrived)|..]);
    }
  }
}
