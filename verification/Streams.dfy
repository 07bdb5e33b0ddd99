/** Byte streams as the relay code sees them: what arrives is cut into reads of any size, a
    write may take only part of the data or fail, a datagram is written whole or not at all.
    A reader or writer carries the script of how its next calls will turn out and fails when
    the script ends, so statements for all scripts hold for every fragmentation, every partial
    write and every moment at which the connection breaks. */
module Streams {

  type byte = x: int | 0 <= x < 256

  function Flatten<T>(chunks: seq<seq<T>>): seq<T> {
    if chunks == [] then [] else chunks[0] + Flatten(chunks[1..])
  }

  lemma {:induction false} FlattenAppend<T>(a: seq<seq<T>>, b: seq<seq<T>>)
    ensures Flatten(a + b) == Flatten(a) + Flatten(b)
  {
    if a == [] {
      assert a + b == b;
    } else {
      assert (a + b)[1..] == a[1..] + b;
      FlattenAppend(a[1..], b);
    }
  }

  // ---- Big-endian integers ----

  function BE16(x: nat): (b: seq<byte>)
    requires x < 0x1_0000
    ensures |b| == 2
  {
    [x / 256, x % 256]
  }

  function From16(b: seq<byte>): (x: nat)
    requires |b| == 2
    ensures x < 0x1_0000
  {
    var high: int, low: int := b[0], b[1];
    high * 256 + low
  }

  function BE32(x: nat): (b: seq<byte>)
    requires x < 0x1_0000_0000
    ensures |b| == 4
  {
    BE16(x / 0x1_0000) + BE16(x % 0x1_0000)
  }

  function From32(b: seq<byte>): nat
    requires |b| == 4
  {
    From16(b[..2]) * 0x1_0000 + From16(b[2..])
  }

  lemma RoundTrip16(x: nat)
    requires x < 0x1_0000
    ensures From16(BE16(x)) == x
  {
  }

  lemma RoundTrip32(x: nat)
    requires x < 0x1_0000_0000
    ensures From32(BE32(x)) == x
  {
    var b := BE32(x);
    assert b[..2] == BE16(x / 0x1_0000) && b[2..] == BE16(x % 0x1_0000);
    RoundTrip16(x / 0x1_0000);
    RoundTrip16(x % 0x1_0000);
  }

  /** binary.BigEndian.PutUint16 into the first two bytes of a buffer. */
  method PutUint16(buf: array<byte>, x: nat)
    requires buf.Length >= 2 && x < 0x1_0000
    modifies buf
    ensures buf[..] == BE16(x) + old(buf[2..])
  {
    buf[0] := x / 256;
    buf[1] := x % 256;
  }

  // ---- Readers and writers ----

  /** The receiving end of a connection: the chunks that successive reads return, and the bytes
      that come together with the end of the stream or the error, as an io.Reader may hand them
      over. */
  class Source {
    var chunks: seq<seq<byte>>
    var last: seq<byte>

    constructor (chunks: seq<seq<byte>>, last: seq<byte>)
      ensures this.chunks == chunks && this.last == last
    {
      this.chunks, this.last := chunks, last;
    }

    ghost function Rest(): seq<byte>
      reads this
    {
      Flatten(chunks) + last
    }

    /** One read of at most limit bytes; a failing read may hand over bytes, too. */
    method Read(limit: nat) returns (ok: bool, data: seq<byte>)
      requires limit > 0
      modifies this
      ensures old(Rest()) == data + Rest() && |data| <= limit
      ensures ok ==> |chunks| < |old(chunks)| || (|chunks| == |old(chunks)| && |data| == limit)
      ensures ok ==> (last == [] <==> old(last) == [])
      ensures !ok ==> Rest() == [] && (data == [] <==> old(last) == [])
    {
      if chunks == [] {
        if |last| <= limit {
          data, last := last, [];
          return false, data;
        }
        data, last := last[..limit], last[limit..];
        return true, data;
      }
      if |chunks[0]| <= limit {
        data, chunks := chunks[0], chunks[1..];
      } else {
        var rest := chunks[0][limit..];
        data := chunks[0][..limit];
        assert chunks[0] == data + rest;
        assert Flatten([rest] + chunks[1..]) == rest + Flatten(chunks[1..]) by {
          assert ([rest] + chunks[1..])[1..] == chunks[1..];
        }
        chunks := [rest] + chunks[1..];
      }
      assert data + (Flatten(chunks) + last) == (data + Flatten(chunks)) + last;
      return true, data;
    }

    /** What was read goes behind what the buffer already holds. */
    static method Fill(buf: array<byte>, got: nat, data: seq<byte>)
      requires got + |data| <= buf.Length
      modifies buf
      ensures buf[..got + |data|] == old(buf[..got]) + data
      ensures buf[got + |data|..] == old(buf[got + |data|..])
    {
      forall i | 0 <= i < |data| { buf[got + i] := data[i]; }
    }

    /** io.ReadFull(conn, buf[:n]). */
    method ReadFull(buf: array<byte>, n: nat) returns (ok: bool)
      requires n <= buf.Length
      modifies this, buf
      ensures ok <==> n <= |old(Rest())|
      ensures ok ==> buf[..n] == old(Rest())[..n] && Rest() == old(Rest())[n..]
      ensures buf[n..] == old(buf[n..])
    {
      ghost var all := Rest();
      var got, more := 0, true;
      while got < n && more
        invariant 0 <= got <= n
        invariant all == buf[..got] + Rest() && (!more ==> Rest() == [])
        invariant buf[n..] == old(buf[n..])
        decreases more, n - got, |chunks|
      {
        var data;
        more, data := Read(n - got);
        var behind := got + |data|;
        assert buf[n..] == buf[behind..][n - behind..];
        Fill(buf, got, data);
        assert buf[n..] == buf[behind..][n - behind..];
        got := behind;
      }
      return got == n;
    }
  }

  /** The sending end: how many bytes successive writes take, and how many writes have failed. */
  class Sink {
    var written: seq<byte>
    var script: seq<nat>
    var failures: nat

    constructor (script: seq<nat>)
      ensures written == [] && this.script == script && failures == 0
    {
      written, this.script, failures := [], script, 0;
    }

    method Write(data: seq<byte>) returns (ok: bool, w: nat)
      modifies this
      ensures ok <==> old(script) != []
      ensures w <= |data| && written == old(written) + data[..w]
      ensures ok ==> |script| < |old(script)| && failures == old(failures)
      ensures !ok ==> w == 0 && script == old(script) && failures == old(failures) + 1
    {
      if script == [] {
        failures := failures + 1;
        return false, 0;
      }
      w := if script[0] < |data| then script[0] else |data|;
      written, script := written + data[..w], script[1..];
      return true, w;
    }

    /** The totalWritten loop of every sender: write what is left until all is written. */
    method WriteAll(data: seq<byte>) returns (ok: bool, totalWritten: nat)
      modifies this
      ensures totalWritten <= |data| && written == old(written) + data[..totalWritten]
      ensures ok <==> totalWritten == |data|
      ensures failures == if ok then old(failures) else old(failures) + 1
      ensures |script| <= |old(script)|
    {
      totalWritten := 0;
      while totalWritten < |data|
        invariant totalWritten <= |data| && written == old(written) + data[..totalWritten]
        invariant |script| <= |old(script)| && failures == old(failures)
        decreases |script|
      {
        var fine, w := Write(data[totalWritten..]);
        if !fine { return false, totalWritten; }
        assert data[..totalWritten] + data[totalWritten..][..w] == data[..totalWritten + w];
        totalWritten := totalWritten + w;
      }
      return true, totalWritten;
    }
  }

  /** A UDP socket: the datagrams sent, and whether the next sends succeed. */
  class DatagramSink {
    var sent: seq<seq<byte>>
    var script: seq<bool>
    var failures: nat

    constructor (script: seq<bool>)
      ensures sent == [] && this.script == script && failures == 0
    {
      sent, this.script, failures := [], script, 0;
    }

    method Write(data: seq<byte>) returns (ok: bool, w: nat)
      modifies this
      ensures ok ==> w == |data| && sent == old(sent) + [data] && failures == old(failures)
      ensures !ok ==> w == 0 && sent == old(sent) && failures == old(failures) + 1
    {
      ok := script != [] && script[0];
      script := if script == [] then [] else script[1..];
      if !ok {
        failures := failures + 1;
        return false, 0;
      }
      sent := sent + [data];
      return true, |data|;
    }

    /** The totalWritten loop around the socket: an empty datagram is not sent at all. */
    method WriteAll(data: seq<byte>) returns (ok: bool)
      modifies this
      ensures ok ==> sent == old(sent) + (if data == [] then [] else [data])
      ensures !ok ==> sent == old(sent) && data != []
      ensures failures == if ok then old(failures) else old(failures) + 1
    {
      var totalWritten := 0;
      while totalWritten < |data|
        invariant totalWritten == 0 || totalWritten == |data|
        invariant sent == old(sent) + (if totalWritten == 0 then [] else [data])
        invariant failures == old(failures)
      {
        var fine, w := Write(data[totalWritten..]);
        if !fine { return false; }
        totalWritten := totalWritten + w;
      }
      return true;
    }
  }
}
