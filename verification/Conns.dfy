/** The accepted TCP connection that waits for a tunnel (LocalTCPConn in shared.go), and how
    often it occurs in a list. */
module Conns {
  import opened Options
  import opened Tables

  /** id names the connection: the operating system never accepts the same one twice. */
  datatype Conn = Conn(id: nat, remoteAddr: string, timeCreated: int)

  /** 1 for the connection c, 0 for any other. */
  function Is(c: Conn): Conn -> nat { d => if d == c then 1 else 0 }

  function In(o: Option<Conn>, c: Conn): nat { if o == Some(c) then 1 else 0 }

  function AsSeq(o: Option<Conn>): seq<Conn> { if o.Some? then [o.value] else [] }

  lemma AppendOption(log: seq<Conn>, o: Option<Conn>, c: Conn)
    ensures Sum(log + AsSeq(o), Is(c)) == Sum(log, Is(c)) + In(o, c)
  {
    if o.Some? {
      SumAppend(log, o.value, Is(c));
    } else {
      assert log + [] == log;
    }
  }
}
