/** UDP datagrams over a TCP tunnel (both accept_udp.go).  Server to client a datagram is
    preceded by its length in two bytes; client to server by a four-byte time stamp and its
    length.  One codec covers both: a frame has a stamp of a fixed number of bytes, 0 or 4. */
module Framing {
  import opened Streams
  import Clock = CongestionClock

  const BUFFER_SIZE := 16 * 1024

  datatype Frame = Frame(stamp: seq<byte>, data: seq<byte>)

  /** What the senders write: nothing for data whose length does not fit two bytes. */
  function EncodeFrame(f: Frame): seq<byte> {
    if |f.data| > 65535 then [] else f.stamp + BE16(|f.data|) + f.data
  }

  function Encode(fs: seq<Frame>): seq<byte> {
    if fs == [] then [] else EncodeFrame(fs[0]) + Encode(fs[1..])
  }

  /** The frames a receiver reads before the stream ends, inside a frame or not, or before a
      length beyond its buffer makes it stop. */
  function Decode(k: nat, bytes: seq<byte>): (fs: seq<Frame>)
    ensures forall f :: f in fs ==> |f.stamp| == k && |f.data| <= BUFFER_SIZE
    decreases |bytes|
  {
    if |bytes| < k + 2 then []
    else
      var size := From16(bytes[k..k + 2]);
      if size > BUFFER_SIZE || |bytes| < k + 2 + size then []
      else [Frame(bytes[..k], bytes[k + 2..k + 2 + size])] + Decode(k, bytes[k + 2 + size..])
  }

  /** The stamps read, with that of a frame that is broken off after its stamp. */
  function Stamps(bytes: seq<byte>): seq<seq<byte>>
    decreases |bytes|
  {
    if |bytes| < 4 then []
    else if |bytes| < 6 then [bytes[..4]]
    else
      var size := From16(bytes[4..6]);
      if size > BUFFER_SIZE || |bytes| < 6 + size then [bytes[..4]]
      else [bytes[..4]] + Stamps(bytes[6 + size..])
  }

  /** The datagrams sent for the frames: empty ones are not. */
  function Datagrams(fs: seq<Frame>): seq<seq<byte>> {
    if fs == [] then [] else (if fs[0].data == [] then [] else [fs[0].data]) + Datagrams(fs[1..])
  }

  /** The frames that get through: oversized ones are skipped by the sender up to 65535 bytes and
      stop the receiver between its buffer size and that. */
  function Through(fs: seq<Frame>): seq<Frame> {
    if fs == [] then []
    else if |fs[0].data| > 65535 then Through(fs[1..])
    else if |fs[0].data| > BUFFER_SIZE then []
    else [fs[0]] + Through(fs[1..])
  }

  // ---- The format ----

  /** On the wire a frame is its stamp, its length in two bytes, high byte first, and its data. */
  lemma WireFormat(f: Frame)
    requires |f.data| <= 65535
    ensures EncodeFrame(f) == f.stamp + [|f.data| / 256, |f.data| % 256] + f.data
  {
  }

  /** Data gets through up to 16384 bytes, and no more. */
  lemma GetsThrough(f: Frame)
    ensures Through([f]) == [f] <==> |f.data| <= 16384
  {
    assert [f][1..] == [] && Through([f][1..]) == [];
  }

  // ---- Round trip and prefixes ----

  lemma DecodeFrame(k: nat, f: Frame, rest: seq<byte>)
    requires |f.stamp| == k && |f.data| <= BUFFER_SIZE
    ensures Decode(k, EncodeFrame(f) + rest) == [f] + Decode(k, rest)
  {
    var bytes := EncodeFrame(f) + rest;
    assert bytes[..k] == f.stamp && bytes[k..k + 2] == BE16(|f.data|);
    RoundTrip16(|f.data|);
    assert bytes[k + 2..k + 2 + |f.data|] == f.data && bytes[k + 2 + |f.data|..] == rest;
  }

  lemma DecodeOversized(k: nat, f: Frame, rest: seq<byte>)
    requires |f.stamp| == k && BUFFER_SIZE < |f.data| <= 65535
    ensures Decode(k, EncodeFrame(f) + rest) == []
  {
    assert (EncodeFrame(f) + rest)[k..k + 2] == BE16(|f.data|);
    RoundTrip16(|f.data|);
  }

  /** The decoder inverts the encoder, on every list of frames and with anything behind them. */
  lemma {:induction false} RoundTrip(k: nat, fs: seq<Frame>)
    requires forall f :: f in fs ==> |f.stamp| == k
    ensures Decode(k, Encode(fs)) == Through(fs)
  {
    if fs == [] {
    } else {
      assert fs[0] in fs && forall f :: f in fs[1..] ==> f in fs;
      RoundTrip(k, fs[1..]);
      if |fs[0].data| > 65535 {
        assert Encode(fs) == Encode(fs[1..]);
      } else if |fs[0].data| > BUFFER_SIZE {
        DecodeOversized(k, fs[0], Encode(fs[1..]));
      } else {
        DecodeFrame(k, fs[0], Encode(fs[1..]));
      }
    }
  }

  /** What follows a stamp holds a length that fits the buffer, and as many bytes. */
  predicate HasBody(rest: seq<byte>) {
    |rest| >= 2 && From16(rest[..2]) <= BUFFER_SIZE && |rest| >= 2 + From16(rest[..2])
  }

  /** The decoder on what follows a stamp. */
  lemma DecodeBody(stamp: seq<byte>, rest: seq<byte>)
    ensures var k := |stamp|;
      if !HasBody(rest) then
        Decode(k, stamp + rest) == [] && (k == 4 ==> Stamps(stamp + rest) == [stamp])
      else
        var n := 2 + From16(rest[..2]);
        && Decode(k, stamp + rest) == [Frame(stamp, rest[2..n])] + Decode(k, rest[n..])
        && (k == 4 ==> Stamps(stamp + rest) == [stamp] + Stamps(rest[n..]))
  {
    var k, whole := |stamp|, stamp + rest;
    assert whole[..k] == stamp;
    if |rest| >= 2 {
      assert whole[k..k + 2] == rest[..2];
      var n := 2 + From16(rest[..2]);
      if |rest| >= n { assert whole[k + 2..k + n] == rest[2..n] && whole[k + n..] == rest[n..]; }
    }
  }

  lemma BodyExtends(rest: seq<byte>, more: seq<byte>)
    requires HasBody(rest)
    ensures HasBody(rest + more) && (rest + more)[..2] == rest[..2]
    ensures var n := 2 + From16(rest[..2]); (rest + more)[2..n] == rest[2..n] && (rest + more)[n..] == rest[n..] + more
  {
    assert (rest + more)[..2] == rest[..2];
  }

  /** Behind a stamp, with a body or without: what more of the stream changes in the first step. */
  lemma DecodeMore(stamp: seq<byte>, rest: seq<byte>, more: seq<byte>)
    ensures var k := |stamp|;
      if !HasBody(rest) then Decode(k, stamp + rest) == []
      else
        var n := 2 + From16(rest[..2]); var f := Frame(stamp, rest[2..n]);
        && Decode(k, stamp + rest) == [f] + Decode(k, rest[n..])
        && Decode(k, stamp + (rest + more)) == [f] + Decode(k, rest[n..] + more)
  {
    DecodeBody(stamp, rest);
    if HasBody(rest) {
      BodyExtends(rest, more);
      DecodeBody(stamp, rest + more);
    }
  }

  lemma ConsPrefix(f: Frame, a: seq<Frame>, b: seq<Frame>)
    requires a <= b
    ensures [f] + a <= [f] + b
  {
    assert b == a + b[|a|..];
  }

  /** A stream that is cut off anywhere decodes to a prefix of what the whole stream decodes to. */
  lemma {:induction false} DecodePrefix(k: nat, part: seq<byte>, more: seq<byte>)
    ensures Decode(k, part) <= Decode(k, part + more)
    decreases |part|
  {
    if |part| < k {
      assert Decode(k, part) == [];
    } else {
      var stamp, rest := part[..k], part[k..];
      assert part == stamp + rest && part + more == stamp + (rest + more);
      DecodeMore(stamp, rest, more);
      if HasBody(rest) {
        var n := 2 + From16(rest[..2]);
        DecodePrefix(k, rest[n..], more);
        ConsPrefix(Frame(stamp, rest[2..n]), Decode(k, rest[n..]), Decode(k, rest[n..] + more));
      }
    }
  }

  lemma {:induction false} DatagramsAppend(a: seq<Frame>, b: seq<Frame>)
    ensures Datagrams(a + b) == Datagrams(a) + Datagrams(b)
  {
    if a == [] {
      assert a + b == b;
    } else {
      assert (a + b)[1..] == a[1..] + b;
      DatagramsAppend(a[1..], b);
    }
  }

  lemma {:induction false} ThroughFitting(fs: seq<Frame>)
    requires forall f :: f in fs ==> |f.data| <= BUFFER_SIZE
    ensures Through(fs) == fs
  {
    if fs == [] {
    } else {
      assert fs[0] in fs && forall f :: f in fs[1..] ==> f in fs;
      ThroughFitting(fs[1..]);
    }
  }

  /** A datagram read into a buffer of the given size is cut to it. */
  function ReadInto(size: nat, d: seq<byte>): seq<byte> { if |d| <= size then d else d[..size] }

  function Received(size: nat, stamps: seq<seq<byte>>, ds: seq<seq<byte>>): (fs: seq<Frame>)
    requires |stamps| == |ds|
    ensures |fs| == |ds| && forall i :: 0 <= i < |ds| ==> fs[i] == Frame(stamps[i], ReadInto(size, ds[i]))
  {
    seq(|ds|, i requires 0 <= i < |ds| => Frame(stamps[i], ReadInto(size, ds[i])))
  }

  /** The receiver reads a length beyond its buffer, at which it stops. */
  predicate GuardFires(k: nat, bytes: seq<byte>)
    decreases |bytes|
  {
    if |bytes| < k + 2 then false
    else
      var size := From16(bytes[k..k + 2]);
      size > BUFFER_SIZE || (|bytes| >= k + 2 + size && GuardFires(k, bytes[k + 2 + size..]))
  }

  /** A part of a stream that begins with a frame: its length, and what follows. */
  lemma PartFrame(k: nat, f: Frame, rest: seq<byte>, part: seq<byte>)
    requires |f.stamp| == k && |f.data| <= BUFFER_SIZE && part <= EncodeFrame(f) + rest
    ensures |part| >= k + 2 ==> From16(part[k..k + 2]) == |f.data|
    ensures |part| >= k + 2 + |f.data| ==> part[k + 2 + |f.data|..] <= rest
  {
    var whole := EncodeFrame(f) + rest;
    assert whole[k..k + 2] == BE16(|f.data|) && whole[k + 2 + |f.data|..] == rest;
    RoundTrip16(|f.data|);
    if |part| >= k + 2 { assert part[k..k + 2] == whole[k..k + 2]; }
    if |part| >= k + 2 + |f.data| { assert part[k + 2 + |f.data|..] == rest[..|part| - (k + 2 + |f.data|)]; }
  }

  /** It never does on any part of a stream of frames that fit. */
  lemma {:induction false} GuardSilent(k: nat, fs: seq<Frame>, part: seq<byte>)
    requires part <= Encode(fs)
    requires forall f :: f in fs ==> |f.stamp| == k && |f.data| <= BUFFER_SIZE
    ensures !GuardFires(k, part)
  {
    if |part| < k + 2 {
    } else {
      assert fs[0] in fs && forall f :: f in fs[1..] ==> f in fs;
      PartFrame(k, fs[0], Encode(fs[1..]), part);
      var n := k + 2 + |fs[0].data|;
      if |part| >= n { GuardSilent(k, fs[1..], part[n..]); }
    }
  }

  /** End to end, in both directions and for any datagrams: with the read buffers of the two
      senders the receiver's guard never fires, what arrives of the stream, wherever it is cut,
      yields a prefix of the nonempty datagrams in order, and the whole stream yields them all. */
  lemma EndToEnd(k: nat, size: nat, stamps: seq<seq<byte>>, ds: seq<seq<byte>>, arrived: seq<byte>)
    requires (k == 0 && size == 16_382) || (k == 4 && size == 16_378)
    requires |stamps| == |ds| && forall i :: 0 <= i < |ds| ==> |stamps[i]| == k
    requires arrived <= Encode(Received(size, stamps, ds))
    ensures var fs := Received(size, stamps, ds);
      && !GuardFires(k, arrived)
      && Decode(k, arrived) <= fs
      && Datagrams(Decode(k, arrived)) <= Datagrams(fs)
      && (arrived == Encode(fs) ==> Decode(k, arrived) == fs)
  {
    var fs := Received(size, stamps, ds);
    RoundTrip(k, fs);
    ThroughFitting(fs);
    GuardSilent(k, fs, arrived);
    var whole := Encode(fs);
    assert arrived + whole[|arrived|..] == whole;
    DecodePrefix(k, arrived, whole[|arrived|..]);
    DatagramsPrefix(Decode(k, arrived), fs);
  }

  lemma DatagramsPrefix(got: seq<Frame>, fs: seq<Frame>)
    requires got <= fs
    ensures Datagrams(got) <= Datagrams(fs)
  {
    assert fs == got + fs[|got|..];
    DatagramsAppend(got, fs[|got|..]);
  }

  // ---- The four copy loops ----

  method BuildPacket(stamp: seq<byte>, data: seq<byte>) returns (packet: seq<byte>)
    requires |data| <= 65535
    ensures packet == EncodeFrame(Frame(stamp, data))
  {
    var header := new byte[2];
    PutUint16(header, |data|);
    packet := stamp + header[..] + data;
  }

  lemma {:induction false} EncodeAppend(a: seq<Frame>, b: seq<Frame>)
    ensures Encode(a + b) == Encode(a) + Encode(b)
  {
    if a == [] {
      assert a + b == b;
    } else {
      assert (a + b)[1..] == a[1..] + b;
      EncodeAppend(a[1..], b);
    }
  }

  lemma EncodeOne(f: Frame)
    ensures Encode([f]) == EncodeFrame(f)
  {
    assert Encode([f]) == EncodeFrame(f) + Encode([]);
  }

  /** After n frames and w bytes of the next one a prefix of the whole stream is written. */
  lemma EncodedSoFar(fs: seq<Frame>, n: nat, w: nat)
    requires n < |fs| && w <= |EncodeFrame(fs[n])|
    ensures Encode(fs[..n + 1]) == Encode(fs[..n]) + EncodeFrame(fs[n])
    ensures Encode(fs[..n]) + EncodeFrame(fs[n])[..w] <= Encode(fs)
  {
    assert fs[..n + 1] == fs[..n] + [fs[n]];
    EncodeAppend(fs[..n], [fs[n]]);
    EncodeOne(fs[n]);
    assert fs == fs[..n + 1] + fs[n + 1..];
    EncodeAppend(fs[..n + 1], fs[n + 1..]);
  }

  /** One turn of both udpToTCP loops, after the datagram was read: write its packet. */
  method SendFrame(
    ghost fs: seq<Frame>, ghost n: nat, stamp: seq<byte>, data: seq<byte>, tcp: Sink, ghost start: seq<byte>)
    returns (ok: bool)
    requires n < |fs| && fs[n] == Frame(stamp, data) && tcp.written == start + Encode(fs[..n])
    modifies tcp
    ensures start <= tcp.written <= start + Encode(fs)
    ensures ok ==> tcp.written == start + Encode(fs[..n + 1])
    ensures ok <==> tcp.failures == old(tcp.failures)
  {
    EncodedSoFar(fs, n, 0);
    EncodedSoFar(fs, n, |EncodeFrame(fs[n])|);
    if |data| > 65535 { return true; }
    var packet := BuildPacket(stamp, data);
    var totalWritten;
    ok, totalWritten := tcp.WriteAll(packet);
    EncodedSoFar(fs, n, totalWritten);
    assert tcp.written == start + (Encode(fs[..n]) + packet[..totalWritten]);
  }

  function Unstamped(ds: seq<seq<byte>>): seq<Frame> { seq(|ds|, i requires 0 <= i < |ds| => Frame([], ds[i])) }

  /** udpToTCP on the server, for the payloads received from the channel until it is closed. */
  method UdpToTcp(payloads: seq<seq<byte>>, tcp: Sink) returns (ok: bool)
    modifies tcp
    ensures old(tcp.written) <= tcp.written <= old(tcp.written) + Encode(Unstamped(payloads))
    ensures ok ==> tcp.written == old(tcp.written) + Encode(Unstamped(payloads))
    ensures ok <==> tcp.failures == old(tcp.failures)
  {
    ghost var fs := Unstamped(payloads);
    for n := 0 to |payloads|
      invariant tcp.written == old(tcp.written) + Encode(fs[..n]) && tcp.failures == old(tcp.failures)
    {
      var fine := SendFrame(fs, n, [], payloads[n], tcp, old(tcp.written));
      if !fine { return false; }
    }
    assert fs[..|payloads|] == fs;
    return true;
  }

  /** The client's time stamp: the last milliseconds in four bytes lose nothing. */
  function StampBytes(sent: nat): (b: seq<byte>)
    ensures |b| == 4 && From32(b) == Clock.Stamp(sent)
  {
    RoundTrip32(Clock.Stamp(sent));
    BE32(Clock.Stamp(sent))
  }

  /** The frames for datagrams read from the socket, each with the clock reading after its read. */
  function Stamped(ds: seq<(nat, seq<byte>)>): seq<Frame> {
    seq(|ds|, i requires 0 <= i < |ds| => Frame(StampBytes(ds[i].0), ds[i].1))
  }

  /** udpToTCP on the client. */
  method StampedUdpToTcp(ds: seq<(nat, seq<byte>)>, tcp: Sink) returns (ok: bool)
    modifies tcp
    ensures old(tcp.written) <= tcp.written <= old(tcp.written) + Encode(Stamped(ds))
    ensures ok ==> tcp.written == old(tcp.written) + Encode(Stamped(ds))
    ensures ok <==> tcp.failures == old(tcp.failures)
  {
    ghost var fs := Stamped(ds);
    for n := 0 to |ds|
      invariant tcp.written == old(tcp.written) + Encode(fs[..n]) && tcp.failures == old(tcp.failures)
    {
      var fine := SendFrame(fs, n, StampBytes(ds[n].0), ds[n].1, tcp, old(tcp.written));
      if !fine { return false; }
    }
    assert fs[..|ds|] == fs;
    return true;
  }

  /** The length, the size guard, and the data. */
  method ReadPayload(tcp: Source, buf: array<byte>) returns (more: bool, packetSize: nat)
    requires buf.Length == BUFFER_SIZE
    modifies tcp, buf
    ensures more <==> HasBody(old(tcp.Rest()))
    ensures more ==> packetSize == From16(old(tcp.Rest())[..2])
    ensures more ==> buf[..packetSize] == old(tcp.Rest())[2..2 + packetSize]
    ensures more ==> tcp.Rest() == old(tcp.Rest())[2 + packetSize..]
  {
    ghost var rest := tcp.Rest();
    var lenBuf := new byte[2];
    more := tcp.ReadFull(lenBuf, 2);
    if !more { return false, 0; }
    assert lenBuf[..] == lenBuf[..2];
    packetSize := From16(lenBuf[..]);
    if packetSize > buf.Length { return false, 0; }
    more := tcp.ReadFull(buf, packetSize);
    if !more { return false, 0; }
    assert rest[2..][..packetSize] == rest[2..2 + packetSize] && rest[2..][packetSize..] == rest[2 + packetSize..];
  }

  /** What follows a stamp, as the decoder sees it. */
  method ReadBody(tcp: Source, ghost stamp: seq<byte>, buf: array<byte>) returns (more: bool, packetSize: nat)
    requires buf.Length == BUFFER_SIZE
    modifies tcp, buf
    ensures more ==> packetSize <= buf.Length && |tcp.Rest()| < |old(tcp.Rest())|
    ensures more ==>
      Decode(|stamp|, stamp + old(tcp.Rest())) == [Frame(stamp, buf[..packetSize])] + Decode(|stamp|, tcp.Rest())
    ensures more && |stamp| == 4 ==> Stamps(stamp + old(tcp.Rest())) == [stamp] + Stamps(tcp.Rest())
    ensures !more ==> Decode(|stamp|, stamp + old(tcp.Rest())) == []
    ensures !more && |stamp| == 4 ==> Stamps(stamp + old(tcp.Rest())) == [stamp]
  {
    DecodeBody(stamp, tcp.Rest());
    more, packetSize := ReadPayload(tcp, buf);
  }

  lemma ConsDatagrams(f: Frame, fs: seq<Frame>)
    ensures Datagrams([f] + fs) == (if f.data == [] then [] else [f.data]) + Datagrams(fs)
  {
    assert ([f] + fs)[1..] == fs;
  }

  /** One turn of both tcpToUDP loops, after the frame was read: send its data on. */
  method ForwardFrame(
    ghost f: Frame, data: seq<byte>, ghost later: seq<Frame>, udp: DatagramSink, ghost total: seq<seq<byte>>)
    returns (ok: bool)
    requires f.data == data && udp.sent + Datagrams([f] + later) == total
    modifies udp
    ensures old(udp.sent) <= udp.sent <= total
    ensures ok ==> udp.sent + Datagrams(later) == total
    ensures ok <==> udp.failures == old(udp.failures)
  {
    ConsDatagrams(f, later);
    ghost var before, own := udp.sent, if data == [] then [] else [data];
    assert before + (own + Datagrams(later)) == (before + own) + Datagrams(later);
    ok := udp.WriteAll(data);
  }

  /** tcpToUDP on the client: however the stream is cut into reads, the datagrams sent depend
      only on its bytes. */
  method TcpToUdp(tcp: Source, udp: DatagramSink) returns (ok: bool)
    modifies tcp, udp
    ensures old(udp.sent) <= udp.sent <= old(udp.sent) + Datagrams(Decode(0, old(tcp.Rest())))
    ensures ok ==> udp.sent == old(udp.sent) + Datagrams(Decode(0, old(tcp.Rest())))
    ensures ok <==> udp.failures == old(udp.failures)
  {
    var buf := new byte[BUFFER_SIZE];
    ghost var total := udp.sent + Datagrams(Decode(0, tcp.Rest()));
    while true
      invariant fresh(buf) && old(udp.sent) <= udp.sent
      invariant udp.sent + Datagrams(Decode(0, tcp.Rest())) == total && udp.failures == old(udp.failures)
      decreases |tcp.Rest()|
    {
      ghost var rest := tcp.Rest();
      assert [] + rest == rest;
      var more, packetSize := ReadBody(tcp, [], buf);
      if !more { return true; }
      var fine := ForwardFrame(Frame([], buf[..packetSize]), buf[..packetSize], Decode(0, tcp.Rest()), udp, total);
      if !fine { return false; }
    }
  }

  /** Some packet's age exceeded the limit when its stamp was read; clock gives the readings,
      from the n-th on. */
  predicate SomeLate(stamps: seq<seq<byte>>, clock: nat -> nat, rtt: nat, n: nat) {
    stamps != [] && (LateAt(stamps[0], clock(n), rtt) || SomeLate(stamps[1..], clock, rtt, n + 1))
  }

  predicate LateAt(stamp: seq<byte>, now: nat, rtt: nat) { |stamp| == 4 && Clock.Flagged(From32(stamp), now, rtt) }

  lemma {:induction false} SomeLateAt(stamps: seq<seq<byte>>, clock: nat -> nat, rtt: nat, n: nat) returns (i: nat)
    requires SomeLate(stamps, clock, rtt, n)
    ensures i < |stamps| && LateAt(stamps[i], clock(n + i), rtt)
  {
    if LateAt(stamps[0], clock(n), rtt) {
      i := 0;
    } else {
      i := SomeLateAt(stamps[1..], clock, rtt, n + 1);
      i := i + 1;
    }
  }

  /** That is, exactly when some stamp is late by the reading that belongs to it. */
  lemma {:induction false} SomeLateWhen(stamps: seq<seq<byte>>, clock: nat -> nat, rtt: nat, n: nat)
    ensures SomeLate(stamps, clock, rtt, n) <==> exists i :: 0 <= i < |stamps| && LateAt(stamps[i], clock(n + i), rtt)
  {
    if stamps == [] {
    } else {
      SomeLateWhen(stamps[1..], clock, rtt, n + 1);
      if SomeLate(stamps, clock, rtt, n) {
        var i := SomeLateAt(stamps, clock, rtt, n);
      } else {
        forall i | 0 <= i < |stamps|
          ensures !LateAt(stamps[i], clock(n + i), rtt)
        {
          if i > 0 { assert stamps[1..][i - 1] == stamps[i] && clock(n + 1 + (i - 1)) == clock(n + i); }
        }
      }
    }
  }

  /** The stamp of the next frame, and whether its packet is late by the clock reading now. */
  method ReadStamp(tcp: Source, now: nat, rtt: nat) returns (more: bool, late: bool, ghost stamp: seq<byte>)
    modifies tcp
    ensures more ==> |stamp| == 4 && stamp + tcp.Rest() == old(tcp.Rest()) && (late <==> LateAt(stamp, now, rtt))
    ensures !more ==> !late && |old(tcp.Rest())| < 4
  {
    ghost var rest := tcp.Rest();
    var timestampBuf := new byte[4];
    more := tcp.ReadFull(timestampBuf, 4);
    stamp := timestampBuf[..];
    late := more && Clock.Flagged(From32(timestampBuf[..]), now, rtt);
    if more { assert stamp == timestampBuf[..4] == rest[..4]; }
  }

  /** tcpToUDP on the server: the datagrams sent and the congestion flag depend only on the
      bytes of the stream and the clock readings at its stamps. */
  method StampedTcpToUdp(tcp: Source, udp: DatagramSink, clock: nat -> nat, rtt: nat)
    returns (ok: bool, congested: bool)
    modifies tcp, udp
    ensures old(udp.sent) <= udp.sent <= old(udp.sent) + Datagrams(Decode(4, old(tcp.Rest())))
    ensures ok ==> udp.sent == old(udp.sent) + Datagrams(Decode(4, old(tcp.Rest())))
    ensures ok <==> udp.failures == old(udp.failures)
    ensures congested ==> SomeLate(Stamps(old(tcp.Rest())), clock, rtt, 0)
    ensures ok ==> (congested <==> SomeLate(Stamps(old(tcp.Rest())), clock, rtt, 0))
  {
    var buf := new byte[BUFFER_SIZE];
    congested := false;
    ghost var total := udp.sent + Datagrams(Decode(4, tcp.Rest()));
    ghost var flagged := SomeLate(Stamps(tcp.Rest()), clock, rtt, 0);
    var headers := 0;
    while true
      invariant fresh(buf) && old(udp.sent) <= udp.sent
      invariant udp.sent + Datagrams(Decode(4, tcp.Rest())) == total && udp.failures == old(udp.failures)
      invariant flagged <==> congested || SomeLate(Stamps(tcp.Rest()), clock, rtt, headers)
      decreases |tcp.Rest()|
    {
      var more, late, stamp := ReadStamp(tcp, clock(headers), rtt);
      if !more { return true, congested; }
      congested, headers := congested || late, headers + 1;
      var packetSize;
      more, packetSize := ReadBody(tcp, stamp, buf);
      if !more { return true, congested; }
      assert ([stamp] + Stamps(tcp.Rest()))[1..] == Stamps(tcp.Rest());
      var fine := ForwardFrame(Frame(stamp, buf[..packetSize]), buf[..packetSize], Decode(4, tcp.Rest()), udp, total);
      if !fine { return false, congested; }
    }
  }

  // ---- Framing and clock together ----

  /** The bytes of a part that begins with a frame, behind the frame's stamp. */
  lemma PartBody(f: Frame, rest: seq<byte>, part: seq<byte>)
    requires |f.stamp| == 4 && |f.data| <= BUFFER_SIZE && part <= EncodeFrame(f) + rest && |part| >= 4
    ensures var body, n := part[4..], 6 + |f.data|;
      && part == f.stamp + body && (HasBody(body) <==> |part| >= n)
      && (|part| >= n ==> From16(body[..2]) == |f.data| && body[n - 4..] == part[n..] <= rest)
  {
    PartFrame(4, f, rest, part);
    assert part[..4] == (EncodeFrame(f) + rest)[..4] == f.stamp;
    if |part| >= 6 { assert part[4..][..2] == part[4..6]; }
  }

  lemma StampsOfFrame(f: Frame, rest: seq<byte>, part: seq<byte>)
    requires |f.stamp| == 4 && |f.data| <= BUFFER_SIZE && part <= EncodeFrame(f) + rest && |part| >= 4
    ensures var n := 6 + |f.data|;
      if |part| < n then Stamps(part) == [f.stamp]
      else part[n..] <= rest && Stamps(part) == [f.stamp] + Stamps(part[n..])
  {
    PartBody(f, rest, part);
    DecodeBody(f.stamp, part[4..]);
  }

  /** The stamps read from any part of what the client wrote are the client's, in order. */
  lemma {:induction false} StampsPrefix(fs: seq<Frame>, part: seq<byte>)
    requires part <= Encode(fs)
    requires forall f :: f in fs ==> |f.stamp| == 4 && |f.data| <= BUFFER_SIZE
    ensures |Stamps(part)| <= |fs|
    ensures forall i :: 0 <= i < |Stamps(part)| ==> Stamps(part)[i] == fs[i].stamp
  {
    if |part| < 4 {
    } else {
      assert fs[0] in fs && forall f :: f in fs[1..] ==> f in fs;
      StampsOfFrame(fs[0], Encode(fs[1..]), part);
      var n := 6 + |fs[0].data|;
      if |part| >= n {
        var rest := part[n..];
        StampsPrefix(fs[1..], rest);
        forall i | 0 <= i < |Stamps(part)| ensures Stamps(part)[i] == fs[i].stamp {
          if i > 0 { assert Stamps(part)[i] == Stamps(rest)[i - 1] == fs[1..][i - 1].stamp; }
        }
      }
    }
  }

  lemma StampsOfClient(ds: seq<(nat, seq<byte>)>, arrived: seq<byte>)
    requires arrived <= Encode(Stamped(ds)) && forall i :: 0 <= i < |ds| ==> |ds[i].1| <= BUFFER_SIZE - 6
    ensures |Stamps(arrived)| <= |ds|
    ensures forall i :: 0 <= i < |Stamps(arrived)| ==> Stamps(arrived)[i] == StampBytes(ds[i].0)
  {
    StampsPrefix(Stamped(ds), arrived);
  }

  /** A flow is flagged only if some packet really was under way for more than three round-trip
      times, wherever the stream is cut and however many windows were crossed. */
  lemma FlaggedOnlyWhenLate(ds: seq<(nat, seq<byte>)>, arrived: seq<byte>, clock: nat -> nat, rtt: nat)
    requires arrived <= Encode(Stamped(ds)) && SomeLate(Stamps(arrived), clock, rtt, 0)
    requires forall i :: 0 <= i < |ds| ==> |ds[i].1| <= BUFFER_SIZE - 6
    requires forall i :: 0 <= i < |ds| ==> ds[i].0 <= clock(i)
    ensures exists i :: 0 <= i < |ds| && clock(i) - ds[i].0 > 3 * Clock.EffectiveRtt(rtt)
  {
    StampsOfClient(ds, arrived);
    var i := SomeLateAt(Stamps(arrived), clock, rtt, 0);
    Clock.FlagMeansLate(ds[i].0, clock(i) - ds[i].0, rtt);
  }
}
