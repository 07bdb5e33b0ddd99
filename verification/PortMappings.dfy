/** Port mappings as the server reads them from its configuration, and target addresses as the
    client resolves them. */
module PortMappings {
  import opened Options
  import WsTunnel

  // ---- Text ----

  /** White space as Unicode defines it. */
  predicate IsSpace(c: char) {
    || c in "\t\n\r \U{000B}\U{000C}\U{0085}\U{00A0}\U{1680}\U{2028}\U{2029}\U{202F}\U{205F}\U{3000}"
    || '\U{2000}' <= c <= '\U{200A}'
  }

  function TrimLeft(s: string): string { if s != "" && IsSpace(s[0]) then TrimLeft(s[1..]) else s }

  function TrimRight(s: string): string
    decreases |s|
  {
    if s != "" && IsSpace(s[|s| - 1]) then TrimRight(s[..|s| - 1]) else s
  }

  function TrimSpace(s: string): string { TrimRight(TrimLeft(s)) }

  /** No white space at either end. */
  predicate Trimmed(s: string) { s != "" ==> !IsSpace(s[0]) && !IsSpace(s[|s| - 1]) }

  lemma TrimTrimmed(s: string)
    requires Trimmed(s)
    ensures TrimSpace(s) == s
  {
  }

  predicate Blank(s: string) { forall i :: 0 <= i < |s| ==> IsSpace(s[i]) }

  lemma {:induction false} TrimLeftOf(a: string, s: string)
    requires Blank(a) && (s != "" ==> !IsSpace(s[0]))
    ensures TrimLeft(a + s) == s
  {
    if a == "" {
      assert a + s == s;
    } else {
      assert (a + s)[1..] == a[1..] + s;
      TrimLeftOf(a[1..], s);
    }
  }

  lemma {:induction false} TrimRightOf(s: string, b: string)
    requires Blank(b) && (s != "" ==> !IsSpace(s[|s| - 1]))
    ensures TrimRight(s + b) == s
    decreases |b|
  {
    if b == "" {
      assert s + b == s;
    } else {
      assert (s + b)[..|s + b| - 1] == s + b[..|b| - 1];
      TrimRightOf(s, b[..|b| - 1]);
    }
  }

  lemma TrimBlank(a: string)
    requires Blank(a)
    ensures TrimSpace(a) == ""
  {
    TrimLeftOf(a, "");
    assert a == a + "";
  }

  /** Trimming takes off the white space around a text, and nothing else. */
  lemma TrimAround(a: string, s: string, b: string)
    requires Blank(a) && Blank(b) && Trimmed(s)
    ensures TrimSpace(a + s + b) == s
  {
    if s == "" {
      assert a + s + b == a + b;
      TrimBlank(a + b);
    } else {
      assert (s + b)[0] == s[0];
      TrimLeftOf(a, s + b);
      assert a + s + b == a + (s + b);
      TrimRightOf(s, b);
    }
  }

  function Split(s: string, sep: char): (parts: seq<string>)
    ensures |parts| >= 1
  {
    if s == "" then [""]
    else
      var rest := Split(s[1..], sep);
      if s[0] == sep then [""] + rest else [[s[0]] + rest[0]] + rest[1..]
  }

  lemma {:induction false} SplitNone(s: string, sep: char)
    requires sep !in s
    ensures Split(s, sep) == [s]
  {
    if s == "" {
    } else {
      SplitNone(s[1..], sep);
      assert [s[0]] + s[1..] == s;
    }
  }

  lemma {:induction false} SplitAt(a: string, sep: char, b: string)
    requires sep !in a
    ensures Split(a + [sep] + b, sep) == [a] + Split(b, sep)
  {
    var s := a + [sep] + b;
    if a == "" {
      assert s[1..] == b;
    } else {
      assert s[1..] == a[1..] + [sep] + b;
      SplitAt(a[1..], sep, b);
      assert [s[0]] + a[1..] == a;
    }
  }

  // ---- Numbers ----

  const MAX_INT := 0x7FFF_FFFF_FFFF_FFFF

  predicate IsDigit(c: char) { '0' <= c <= '9' }

  function ParseNat(s: string): Option<nat>
    decreases |s|
  {
    if s == "" || !IsDigit(s[|s| - 1]) then None
    else
      var d := s[|s| - 1] as int - '0' as int;
      if |s| == 1 then Some(d)
      else
        match ParseNat(s[..|s| - 1])
        case None => None
        case Some(n) => Some(10 * n + d)
  }

  /** An optional sign and decimal digits, within 64 bits. */
  function Atoi(s: string): Option<int> {
    var signed := s != "" && (s[0] == '+' || s[0] == '-');
    match ParseNat(if signed then s[1..] else s)
    case None => None
    case Some(n) =>
      var v := if signed && s[0] == '-' then 0 - n else n as int;
      if -MAX_INT - 1 <= v <= MAX_INT then Some(v) else None
  }

  function PrintNat(n: nat): string {
    var d := [('0' as int + n % 10) as char];
    if n < 10 then d else PrintNat(n / 10) + d
  }

  function Itoa(i: int): string { if i < 0 then "-" + PrintNat(-i) else PrintNat(i) }

  lemma {:induction false} PrintDigits(n: nat)
    ensures PrintNat(n) != "" && forall i :: 0 <= i < |PrintNat(n)| ==> IsDigit(PrintNat(n)[i])
  {
    if n < 10 {
    } else {
      PrintDigits(n / 10);
    }
  }

  lemma {:induction false} ParsePrint(n: nat)
    ensures ParseNat(PrintNat(n)) == Some(n)
  {
    var s := PrintNat(n);
    assert s[|s| - 1] == ('0' as int + n % 10) as char;
    if n < 10 {
    } else {
      ParsePrint(n / 10);
      PrintDigits(n / 10);
      assert s[..|s| - 1] == PrintNat(n / 10);
    }
  }

  lemma AtoiItoa(i: int)
    ensures Atoi(Itoa(i)) == if -MAX_INT - 1 <= i <= MAX_INT then Some(i) else None
  {
    PrintDigits(if i < 0 then -i else i);
    ParsePrint(if i < 0 then -i else i);
  }

  /** The texts that are numbers: digits, one at least. */
  lemma {:induction false} ParseNatSome(s: string)
    ensures ParseNat(s).Some? <==> s != "" && forall i :: 0 <= i < |s| ==> IsDigit(s[i])
    decreases |s|
  {
    if |s| <= 1 {
    } else {
      ParseNatSome(s[..|s| - 1]);
      assert forall i :: 0 <= i < |s| - 1 ==> s[..|s| - 1][i] == s[i];
    }
  }

  /** A number has no character besides its sign and digits. */
  lemma AtoiChars(s: string, c: char)
    requires Atoi(s).Some? && !IsDigit(c) && c != '+' && c != '-'
    ensures c !in s
  {
    ParseNatSome(if s != "" && (s[0] == '+' || s[0] == '-') then s[1..] else s);
  }

  /** A printed number has no character besides its digits and, if negative, its sign. */
  lemma ItoaChars(i: int, c: char)
    requires !IsDigit(c) && (c == '-' ==> i >= 0)
    ensures c !in Itoa(i)
  {
    PrintDigits(if i < 0 then -i else i);
  }

  lemma ItoaTrimmed(i: int)
    ensures Itoa(i) != "" && Trimmed(Itoa(i)) && TrimSpace(Itoa(i)) == Itoa(i)
  {
    PrintDigits(if i < 0 then -i else i);
    TrimTrimmed(Itoa(i));
  }

  // ---- The server: from mappings to listeners ----

  datatype Listener = Listener(localAddr: string, remoteAddr: string)

  /** The listeners started, and whether a fatal error then ended the process. */
  datatype Startup = Startup(listeners: seq<Listener>, fatal: bool)

  const FATAL := Startup([], true)

  function Colon(port: int): string { ":" + Itoa(port) }

  /** One listener for each port, aimed at the given target or at the same port. */
  function RangeListeners(lo: int, hi: int, target: Option<string>): seq<Listener>
    requires lo <= hi + 1
  {
    seq(hi + 1 - lo, i requires 0 <= i < hi + 1 - lo =>
      Listener(Colon(lo + i), if target.Some? then target.value else Itoa(lo + i)))
  }

  lemma RangeGrows(lo: int, hi: int, target: Option<string>)
    requires lo <= hi
    ensures RangeListeners(lo, hi, target)
         == RangeListeners(lo, hi - 1, target) + [Listener(Colon(hi), if target.Some? then target.value else Itoa(hi))]
  {
  }

  function ParseRange(text: string, target: Option<string>): Startup {
    var parts := Split(text, '-');
    if |parts| != 2 then FATAL
    else
      var lo := Atoi(TrimSpace(parts[0]));
      if lo.None? || lo.value < 1 || lo.value > 65535 then FATAL
      else
        var hi := Atoi(TrimSpace(parts[1]));
        if hi.None? || hi.value < 1 || hi.value > 65535 || hi.value < lo.value then FATAL
        else Startup(RangeListeners(lo.value, hi.value, target), false)
  }

  function Parse(mapping: string): Startup {
    var parts := Split(mapping, '=');
    if |parts| == 1 then
      var local := TrimSpace(parts[0]);
      if '-' in local then ParseRange(local, None)
      else
        var port := Atoi(local);
        if port.None? || port.value < 1 || port.value > 65535 then FATAL
        else Startup([Listener(Colon(port.value), local)], false)
    else if |parts| == 2 then
      var local := TrimSpace(parts[0]);
      var remote := TrimSpace(parts[1]);
      if '-' in local then ParseRange(local, Some(remote))
      else
        var port := Atoi(local);
        var addr := if port.Some? && port.value > 1 && port.value < 65535 then Colon(port.value) else local;
        Startup([Listener(addr, remote)], false)
    else FATAL
  }

  /** Mappings in order, up to the first fatal one. */
  function StartUp(parse: string -> Startup, mappings: seq<string>): Startup
    decreases |mappings|
  {
    if mappings == [] then Startup([], false)
    else
      var before := StartUp(parse, mappings[..|mappings| - 1]);
      if before.fatal then before
      else
        var last := parse(mappings[|mappings| - 1]);
        Startup(before.listeners + last.listeners, last.fatal)
  }

  function ParseAll(mappings: seq<string>): Startup { StartUp(Parse, mappings) }

  lemma {:induction false} FatalStays(parse: string -> Startup, mappings: seq<string>, i: nat)
    requires i <= |mappings| && StartUp(parse, mappings[..i]).fatal
    ensures StartUp(parse, mappings) == StartUp(parse, mappings[..i])
    decreases |mappings|
  {
    if i == |mappings| {
      assert mappings[..i] == mappings;
    } else {
      assert mappings[..|mappings| - 1][..i] == mappings[..i];
      FatalStays(parse, mappings[..|mappings| - 1], i);
    }
  }

  /** Start-up goes through exactly when no mapping is fatal. */
  lemma {:induction false} StartsAll(mappings: seq<string>)
    ensures !ParseAll(mappings).fatal <==> forall m :: m in mappings ==> !Parse(m).fatal
    decreases |mappings|
  {
    if mappings == [] {
    } else {
      var n := |mappings| - 1;
      StartsAll(mappings[..n]);
      assert mappings == mappings[..n] + [mappings[n]];
    }
  }

  predicate Asked(mappings: seq<string>, l: Listener) {
    exists m :: m in mappings && l in Parse(m).listeners
  }

  /** A listener then runs exactly when some mapping asks for it. */
  lemma {:induction false} StartsAsked(mappings: seq<string>, l: Listener)
    ensures !ParseAll(mappings).fatal ==> (l in ParseAll(mappings).listeners <==> Asked(mappings, l))
    decreases |mappings|
  {
    if mappings == [] {
    } else {
      var n := |mappings| - 1;
      StartsAsked(mappings[..n], l);
      assert mappings == mappings[..n] + [mappings[n]];
      assert Asked(mappings, l) <==> Asked(mappings[..n], l) || l in Parse(mappings[n]).listeners;
    }
  }

  /** Starts the listeners of a range, one after the other. */
  method ListenRange(text: string, target: Option<string>) returns (listeners: seq<Listener>, fatal: bool)
    ensures Startup(listeners, fatal) == ParseRange(text, target)
  {
    listeners, fatal := [], true;
    var parts := Split(text, '-');
    if |parts| != 2 { return; }
    var startPort := Atoi(TrimSpace(parts[0]));
    if startPort.None? || startPort.value < 1 || startPort.value > 65535 { return; }
    var endPort := Atoi(TrimSpace(parts[1]));
    if endPort.None? || endPort.value < 1 || endPort.value > 65535 || endPort.value < startPort.value { return; }
    fatal := false;
    var port := startPort.value;
    while port <= endPort.value
      invariant startPort.value <= port <= endPort.value + 1
      invariant listeners == RangeListeners(startPort.value, port - 1, target)
    {
      RangeGrows(startPort.value, port, target);
      listeners := listeners + [Listener(Colon(port), if target.Some? then target.value else Itoa(port))];
      port := port + 1;
    }
  }

  /** Starts the listeners of every mapping. */
  method ParsePortMappings(ports: seq<string>) returns (listeners: seq<Listener>, fatal: bool)
    ensures Startup(listeners, fatal) == ParseAll(ports)
  {
    listeners, fatal := [], false;
    for i := 0 to |ports|
      invariant !fatal && Startup(listeners, fatal) == ParseAll(ports[..i])
    {
      assert ports[..i + 1][..i] == ports[..i];
      var parts := Split(ports[i], '=');
      var more: seq<Listener> := [];
      var local := TrimSpace(parts[0]);
      if |parts| > 2 {
        fatal := true;
      } else if '-' in local {
        more, fatal := ListenRange(local, if |parts| == 2 then Some(TrimSpace(parts[1])) else None);
      } else if |parts| == 1 {
        var port := Atoi(local);
        if port.None? || port.value < 1 || port.value > 65535 {
          fatal := true;
        } else {
          more := [Listener(Colon(port.value), local)];
        }
      } else {
        var port := Atoi(local);
        if port.Some? && port.value > 1 && port.value < 65535 {
          more := [Listener(Colon(port.value), TrimSpace(parts[1]))];
        } else {
          more := [Listener(local, TrimSpace(parts[1]))];
        }
      }
      listeners := listeners + more;
      if fatal {
        FatalStays(Parse, ports, i + 1);
        return;
      }
    }
    assert ports[..|ports|] == ports;
  }

  // ---- The client: from a target to an address ----

  /** The port for the traffic ledger and the address to dial. */
  function ResolveRemoteAddr(remoteAddr: string): Option<(int, string)> {
    var parts := Split(remoteAddr, ':');
    if |parts| < 2 then
      match Atoi(parts[0])
      case None => None
      case Some(port) => Some((port, "127.0.0.1:" + Itoa(port)))
    else
      match Atoi(parts[1])
      case None => None
      case Some(port) => Some((port, remoteAddr))
  }

  // ---- What a mapping means ----

  /** The forms of a mapping; To binds every local address, At a given one. */
  datatype Mapping =
    | Bare(port: int)
    | Range(lo: int, hi: int)
    | To(port: int, target: string)
    | RangeTo(lo: int, hi: int, target: string)
    | At(addr: string, target: string)

  function Print(m: Mapping): string {
    match m
    case Bare(port) => Itoa(port)
    case Range(lo, hi) => Itoa(lo) + "-" + Itoa(hi)
    case To(port, target) => Itoa(port) + "=" + target
    case RangeTo(lo, hi, target) => Itoa(lo) + "-" + Itoa(hi) + "=" + target
    case At(addr, target) => addr + "=" + target
  }

  predicate InBounds(lo: int, hi: int) { 1 <= lo <= hi <= 65535 }

  /** What each form starts, if anything. Ports 1 and 65535 with a target, and numbers that are
      no port, keep their text as the local address. */
  function Meaning(m: Mapping): Startup {
    match m
    case Bare(port) => if InBounds(port, port) then Startup(RangeListeners(port, port, None), false) else FATAL
    case Range(lo, hi) => if InBounds(lo, hi) then Startup(RangeListeners(lo, hi, None), false) else FATAL
    case To(port, target) =>
      if port < 0 then FATAL
      else Startup([Listener(if 1 < port < 65535 then Colon(port) else Itoa(port), target)], false)
    case RangeTo(lo, hi, target) =>
      if InBounds(lo, hi) then Startup(RangeListeners(lo, hi, Some(target)), false) else FATAL
    case At(addr, target) => Startup([Listener(addr, target)], false)
  }

  predicate Plain(text: string) { Trimmed(text) && '=' !in text }

  predicate Printable(m: Mapping) {
    && ((m.To? || m.RangeTo? || m.At?) ==> Plain(m.target))
    && (m.At? ==> Plain(m.addr) && '-' !in m.addr && ':' in m.addr)
  }

  lemma SplitPrinted(local: string, target: string)
    requires '=' !in local && Plain(target)
    ensures Split(local + "=" + target, '=') == [local, target] && TrimSpace(target) == target
  {
    SplitAt(local, '=', target);
    SplitNone(target, '=');
    TrimTrimmed(target);
  }

  /** A range must not begin with its dash, nor have two. */
  lemma BadRange(a: string, b: string, target: Option<string>)
    ensures ParseRange("-" + b, target) == FATAL
    ensures '-' !in a ==> ParseRange(a + "-" + ("-" + b), target) == FATAL
  {
    SplitAt("", '-', b);
    assert "" + ['-'] + b == "-" + b;
    if '-' !in a { SplitAt(a, '-', "-" + b); }
  }

  lemma PrintedRange(lo: int, hi: int, target: Option<string>)
    ensures ParseRange(Itoa(lo) + "-" + Itoa(hi), target)
         == if InBounds(lo, hi) then Startup(RangeListeners(lo, hi, target), false) else FATAL
  {
    var a, b := Itoa(lo), Itoa(hi);
    if lo < 0 {
      assert a + "-" + b == "-" + (PrintNat(-lo) + "-" + b);
      BadRange("", PrintNat(-lo) + "-" + b, target);
    } else {
      ItoaChars(lo, '-');
      if hi < 0 {
        BadRange(a, PrintNat(-hi), target);
      } else {
        ItoaChars(hi, '-');
        SplitAt(a, '-', b);
        SplitNone(b, '-');
        ItoaTrimmed(lo);
        ItoaTrimmed(hi);
        AtoiItoa(lo);
        AtoiItoa(hi);
      }
    }
  }

  lemma RangeTrimmed(lo: int, hi: int)
    ensures var text := Itoa(lo) + "-" + Itoa(hi); TrimSpace(text) == text && '=' !in text && '-' in text
  {
    var a, b := Itoa(lo), Itoa(hi);
    ItoaTrimmed(lo);
    ItoaTrimmed(hi);
    ItoaChars(lo, '=');
    ItoaChars(hi, '=');
    assert (a + "-" + b)[0] == a[0] && (a + "-" + b)[|a + "-" + b| - 1] == b[|b| - 1];
    TrimTrimmed(a + "-" + b);
    assert (a + "-" + b)[|a|] == '-';
  }

  /** A range whose text is a negative number. */
  lemma NegativePort(port: int, target: Option<string>)
    requires port < 0
    ensures ParseRange(Itoa(port), target) == FATAL && '-' in Itoa(port)
  {
    BadRange("", PrintNat(-port), target);
    assert Itoa(port)[0] == '-';
  }

  lemma BareMeans(port: int)
    ensures Parse(Print(Bare(port))) == Meaning(Bare(port))
  {
    ItoaChars(port, '=');
    SplitNone(Itoa(port), '=');
    ItoaTrimmed(port);
    if port < 0 {
      NegativePort(port, None);
    } else {
      ItoaChars(port, '-');
      AtoiItoa(port);
      if InBounds(port, port) { assert RangeListeners(port, port, None) == [Listener(Colon(port), Itoa(port))]; }
    }
  }

  lemma RangeMeans(lo: int, hi: int)
    ensures Parse(Print(Range(lo, hi))) == Meaning(Range(lo, hi))
  {
    RangeTrimmed(lo, hi);
    SplitNone(Itoa(lo) + "-" + Itoa(hi), '=');
    PrintedRange(lo, hi, None);
  }

  lemma RangeToMeans(lo: int, hi: int, target: string)
    requires Plain(target)
    ensures Parse(Print(RangeTo(lo, hi, target))) == Meaning(RangeTo(lo, hi, target))
  {
    RangeTrimmed(lo, hi);
    SplitPrinted(Itoa(lo) + "-" + Itoa(hi), target);
    PrintedRange(lo, hi, Some(target));
  }

  lemma ToMeans(port: int, target: string)
    requires Plain(target)
    ensures Parse(Print(To(port, target))) == Meaning(To(port, target))
  {
    ItoaChars(port, '=');
    SplitPrinted(Itoa(port), target);
    ItoaTrimmed(port);
    if port < 0 {
      NegativePort(port, Some(target));
    } else {
      ItoaChars(port, '-');
      AtoiItoa(port);
    }
  }

  lemma AtMeans(addr: string, target: string)
    requires Printable(At(addr, target))
    ensures Parse(Print(At(addr, target))) == Meaning(At(addr, target))
  {
    SplitPrinted(addr, target);
    TrimTrimmed(addr);
    if Atoi(addr).Some? { AtoiChars(addr, ':'); }
  }

  /** Parsing inverts printing: the text of a mapping starts what the mapping means, and is
      refused when it means nothing. Reversed and out-of-bounds ranges are among these, for all
      integers as bounds. */
  lemma ParseInvertsPrint(m: Mapping)
    requires Printable(m)
    ensures Parse(Print(m)) == Meaning(m)
  {
    match m
    case Bare(port) => BareMeans(port);
    case Range(lo, hi) => RangeMeans(lo, hi);
    case To(port, target) => ToMeans(port, target);
    case RangeTo(lo, hi, target) => RangeToMeans(lo, hi, target);
    case At(addr, target) => AtMeans(addr, target);
  }

  lemma BlankPlain(a: string, c: char)
    requires Blank(a) && !IsSpace(c)
    ensures c !in a
  {
  }

  /** White space around a mapping and around its equals sign does not matter. */
  lemma SpaceIgnored(a: string, local: string, b: string, c: string, target: string, d: string)
    requires Blank(a) && Blank(b) && Blank(c) && Blank(d) && Plain(local) && Plain(target)
    ensures Parse(a + local + b) == Parse(local)
    ensures Parse(a + local + b + "=" + (c + target + d)) == Parse(local + "=" + target)
  {
    BlankPlain(a, '=');
    BlankPlain(b, '=');
    BlankPlain(c, '=');
    BlankPlain(d, '=');
    TrimAround(a, local, b);
    TrimAround(c, target, d);
    TrimTrimmed(local);
    TrimTrimmed(target);
    SplitNone(a + local + b, '=');
    SplitNone(local, '=');
    SplitAt(a + local + b, '=', c + target + d);
    SplitNone(c + target + d, '=');
    SplitPrinted(local, target);
  }

  /** A mapping has no two equals signs, and a range no two dashes. */
  lemma TwoSeparatorsFatal(a: string, b: string, c: string, target: Option<string>)
    ensures '=' !in a && '=' !in b ==> Parse(a + "=" + (b + "=" + c)) == FATAL
    ensures '-' !in a && '-' !in b ==> ParseRange(a + "-" + (b + "-" + c), target) == FATAL
  {
    if '=' !in a && '=' !in b {
      SplitAt(a, '=', b + "=" + c);
      SplitAt(b, '=', c);
    }
    if '-' !in a && '-' !in b {
      SplitAt(a, '-', b + "-" + c);
      SplitAt(b, '-', c);
    }
  }

  /** What the mappings start, one after the other. */
  function Concat(parse: string -> Startup, mappings: seq<string>): seq<Listener> {
    if mappings == [] then [] else parse(mappings[0]).listeners + Concat(parse, mappings[1..])
  }

  lemma {:induction false} ConcatAppend(parse: string -> Startup, a: seq<string>, m: string)
    ensures Concat(parse, a + [m]) == Concat(parse, a) + parse(m).listeners
  {
    if a == [] {
      assert ([] + [m])[1..] == [];
    } else {
      assert (a + [m])[1..] == a[1..] + [m];
      ConcatAppend(parse, a[1..], m);
    }
  }

  lemma {:induction false} NoneFatal(parse: string -> Startup, mappings: seq<string>)
    requires forall i :: 0 <= i < |mappings| ==> !parse(mappings[i]).fatal
    ensures StartUp(parse, mappings) == Startup(Concat(parse, mappings), false)
    decreases |mappings|
  {
    if mappings == [] {
    } else {
      var n := |mappings| - 1;
      NoneFatal(parse, mappings[..n]);
      ConcatAppend(parse, mappings[..n], mappings[n]);
      assert mappings == mappings[..n] + [mappings[n]];
    }
  }

  lemma StartUpLast(parse: string -> Startup, before: seq<string>, m: string)
    requires !StartUp(parse, before).fatal
    ensures StartUp(parse, before + [m])
         == Startup(StartUp(parse, before).listeners + parse(m).listeners, parse(m).fatal)
  {
    assert (before + [m])[..|before|] == before;
  }

  lemma FirstFatal(parse: string -> Startup, before: seq<string>, m: string, mappings: seq<string>)
    requires !StartUp(parse, before).fatal && parse(m).fatal && before + [m] <= mappings
    ensures StartUp(parse, mappings) == Startup(StartUp(parse, before).listeners + parse(m).listeners, true)
  {
    var i := |before| + 1;
    assert mappings[..i] == before + [m];
    StartUpLast(parse, before, m);
    FatalStays(parse, mappings, i);
  }

  lemma InOrder(parse: string -> Startup, mappings: seq<string>, n: nat)
    requires n <= |mappings| && forall i :: 0 <= i < n ==> !parse(mappings[i]).fatal
    requires n < |mappings| ==> parse(mappings[n]) == FATAL
    ensures StartUp(parse, mappings) == Startup(Concat(parse, mappings[..n]), n < |mappings|)
  {
    NoneFatal(parse, mappings[..n]);
    if n == |mappings| {
      assert mappings[..n] == mappings;
    } else {
      FirstFatal(parse, mappings[..n], mappings[n], mappings);
    }
  }

  /** Listeners start in the order of the mappings, each mapping's in its own order; those before the
      first fatal mapping have started when it ends the process. */
  lemma StartsInOrder(mappings: seq<string>, n: nat)
    requires n <= |mappings| && forall i :: 0 <= i < n ==> !Parse(mappings[i]).fatal
    requires n < |mappings| ==> Parse(mappings[n]).fatal
    ensures ParseAll(mappings) == Startup(Concat(Parse, mappings[..n]), n < |mappings|)
  {
    if n < |mappings| { FatalStartsNothing(mappings[n]); }
    InOrder(Parse, mappings, n);
  }

  lemma FatalStartsNothing(mapping: string)
    ensures Parse(mapping).fatal ==> Parse(mapping) == FATAL
  {
  }

  // ---- From mapping to address ----

  /** A number, however written, resolves to that port of the client's own host. */
  lemma BarePortResolves(text: string)
    requires Atoi(text).Some?
    ensures ResolveRemoteAddr(text) == Some((Atoi(text).value, "127.0.0.1:" + Itoa(Atoi(text).value)))
  {
    AtoiChars(text, ':');
    SplitNone(text, ':');
  }

  predicate SamePort(l: Listener, port: int) {
    l.localAddr == Colon(port) && ResolveRemoteAddr(l.remoteAddr) == Some((port, "127.0.0.1:" + Itoa(port)))
  }

  lemma RangeSamePorts(lo: int, hi: int, i: nat)
    requires InBounds(lo, hi) && i < hi + 1 - lo
    ensures SamePort(RangeListeners(lo, hi, None)[i], lo + i)
  {
    AtoiItoa(lo + i);
    BarePortResolves(Itoa(lo + i));
  }

  /** Any mapping text without a target that is not refused starts, in ascending order and once
      each, the listeners of consecutive valid ports, and every one of them reaches the same
      port on the client's own host. */
  lemma WithoutTarget(mapping: string) returns (lo: int, hi: int)
    requires '=' !in mapping
    ensures var ls := Parse(mapping).listeners;
      !Parse(mapping).fatal ==>
        InBounds(lo, hi) && |ls| == hi + 1 - lo && forall i :: 0 <= i < |ls| ==> SamePort(ls[i], lo + i)
  {
    lo, hi := 0, 0;
    SplitNone(mapping, '=');
    if Parse(mapping).fatal { return; }
    var local := TrimSpace(mapping);
    if '-' in local {
      var parts := Split(local, '-');
      lo, hi := Atoi(TrimSpace(parts[0])).value, Atoi(TrimSpace(parts[1])).value;
      var ls := Parse(mapping).listeners;
      assert ls == RangeListeners(lo, hi, None);
      forall i | 0 <= i < |ls| ensures SamePort(ls[i], lo + i) { RangeSamePorts(lo, hi, i); }
    } else {
      lo := Atoi(local).value;
      hi := lo;
      BarePortResolves(local);
    }
  }

  /** Every text with a colon is a host, the text between the first colon and the second, if there
      is a second, and the remainder. */
  lemma {:induction false} ColonParts(addr: string) returns (host: string, middle: string, tail: string)
    requires ':' in addr
    ensures addr == host + ":" + middle + tail && ':' !in host && ':' !in middle && (tail == "" || tail[0] == ':')
  {
    if addr[0] == ':' {
      host := "";
      middle, tail := UpToColon(addr[1..]);
    } else {
      host, middle, tail := ColonParts(addr[1..]);
      host := [addr[0]] + host;
    }
  }

  lemma {:induction false} UpToColon(text: string) returns (front: string, tail: string)
    ensures text == front + tail && ':' !in front && (tail == "" || tail[0] == ':')
  {
    if text == "" || text[0] == ':' {
      front, tail := "", text;
    } else {
      front, tail := UpToColon(text[1..]);
      front := [text[0]] + front;
    }
  }

  /** An address with a colon is accepted if and only if the text between its first and its second
      colon, or its end, is a number; that number is the port, and the address is kept. */
  lemma ColonResolves(host: string, middle: string, tail: string)
    requires ':' !in host && ':' !in middle && (tail == "" || tail[0] == ':')
    ensures var addr := host + ":" + middle + tail;
      ResolveRemoteAddr(addr) == if Atoi(middle).Some? then Some((Atoi(middle).value, addr)) else None
  {
    var addr := host + ":" + middle + tail;
    SplitAt(host, ':', middle + tail);
    assert addr == host + [':'] + (middle + tail);
    if tail == "" {
      assert middle + tail == middle;
      SplitNone(middle, ':');
    } else {
      SplitAt(middle, ':', tail[1..]);
      assert middle + tail == middle + [':'] + tail[1..];
    }
  }

  /** A host without a colon and a port resolve to themselves. */
  lemma HostResolves(host: string, port: int)
    requires ':' !in host && -MAX_INT - 1 <= port <= MAX_INT
    ensures ResolveRemoteAddr(host + ":" + Itoa(port)) == Some((port, host + ":" + Itoa(port)))
  {
    ItoaChars(port, ':');
    AtoiItoa(port);
    ColonResolves(host, Itoa(port), "");
    assert host + ":" + Itoa(port) + "" == host + ":" + Itoa(port);
  }

  /** So an address in brackets is refused when nothing stands between its first two colons, and
      otherwise accepted with a part of the host as its port, as far as that is a number. */
  lemma BracketsMisread(group: string, port: int, rest: string)
    requires ':' !in group && -MAX_INT - 1 <= port <= MAX_INT
    ensures ResolveRemoteAddr("[" + group + ":" + "" + (":" + rest)) == None
    ensures var addr := "[" + group + ":" + Itoa(port) + (":" + rest); ResolveRemoteAddr(addr) == Some((port, addr))
  {
    ColonResolves("[" + group, "", ":" + rest);
    ItoaChars(port, ':');
    AtoiItoa(port);
    ColonResolves("[" + group, Itoa(port), ":" + rest);
  }

  // ---- Over a websocket tunnel ----

  lemma PingRefused()
    ensures ResolveRemoteAddr(WsTunnel.SG_PING) == None
  {
    SplitNone(WsTunnel.SG_PING, ':');
    assert !IsDigit(WsTunnel.SG_PING[0]);
  }

  /** In every interleaving, an address that the client can use is the one the client reads:
      pings never hide it, and what is left for the relay is a first part of what the server's
      relay wrote. */
  lemma UsableAddressArrives(
    channelSize: nat, loops: nat, es: seq<WsTunnel.Event>, t: nat, arrived: seq<WsTunnel.Message>)
    requires t < |WsTunnel.Exec(WsTunnel.Init(channelSize, loops), es).tunnels|
    requires var x := WsTunnel.Exec(WsTunnel.Init(channelSize, loops), es).tunnels[t];
      && arrived <= x.wire && |arrived| > x.pings
      && (x.target.Some? ==> ResolveRemoteAddr(x.target.value.remoteAddr).Some?)
    ensures var x := WsTunnel.Exec(WsTunnel.Init(channelSize, loops), es).tunnels[t];
      && x.target.Some? && arrived[x.pings + 1..] <= WsTunnel.Datas(x.data)
      && WsTunnel.ReadAddress(arrived) == Some((x.target.value.remoteAddr, arrived[x.pings + 1..]))
  {
    WsTunnel.ClientGetsAddress(channelSize, loops, es, t, arrived);
    PingRefused();
  }
}
