/** The traffic ledger: usage per port is added in memory, and every fifteen seconds collected
    and merged into a file that the web page reads. Saves are serialised; additions and page
    views interleave with them. */
module UsageLedger {
  import opened Tables

  datatype PortUsage = PortUsage(port: int, usage: nat)

  // ---- Lists of entries ----

  predicate Distinct(es: seq<PortUsage>) {
    forall i, j :: 0 <= i < j < |es| ==> es[i].port != es[j].port
  }

  /** What a list holds for a port. */
  function Amount(es: seq<PortUsage>, p: int): nat
    decreases |es|
  {
    if es == [] then 0
    else
      var e := es[|es| - 1];
      Amount(es[..|es| - 1], p) + (if e.port == p then e.usage else 0)
  }

  function Total(es: seq<PortUsage>): nat
    decreases |es|
  {
    if es == [] then 0 else Total(es[..|es| - 1]) + es[|es| - 1].usage
  }

  lemma {:induction false} AmountAppend(es: seq<PortUsage>, fs: seq<PortUsage>, p: int)
    ensures Amount(es + fs, p) == Amount(es, p) + Amount(fs, p)
    decreases |fs|
  {
    if fs == [] {
      assert es + fs == es;
    } else {
      assert (es + fs)[..|es + fs| - 1] == es + fs[..|fs| - 1];
      AmountAppend(es, fs[..|fs| - 1], p);
    }
  }

  lemma AmountOne(es: seq<PortUsage>, e: PortUsage, p: int)
    ensures Amount(es + [e], p) == Amount(es, p) + (if e.port == p then e.usage else 0)
  {
    assert (es + [e])[..|es|] == es;
  }

  lemma {:induction false} AmountAbsent(es: seq<PortUsage>, p: int)
    requires forall i :: 0 <= i < |es| ==> es[i].port != p
    ensures Amount(es, p) == 0
    decreases |es|
  {
    if es == [] {
    } else {
      AmountAbsent(es[..|es| - 1], p);
    }
  }

  lemma {:induction false} AmountAt(es: seq<PortUsage>, i: nat)
    requires Distinct(es) && i < |es|
    ensures Amount(es, es[i].port) == es[i].usage
    decreases |es|
  {
    if i == |es| - 1 {
      AmountAbsent(es[..|es| - 1], es[i].port);
    } else {
      AmountAt(es[..|es| - 1], i);
    }
  }

  // ---- Maps and their listings ----

  function Holds(m: map<int, nat>, p: int): nat { if p in m then m[p] else 0 }

  /** A list of a map's entries, in any order: what ranging over it yields. */
  predicate IsListing(m: map<int, nat>, es: seq<PortUsage>) {
    && Distinct(es)
    && (forall i :: 0 <= i < |es| ==> es[i].port in m && m[es[i].port] == es[i].usage)
    && (forall p :: p in m ==> PortUsage(p, m[p]) in es)
  }

  lemma ListingAmount(m: map<int, nat>, es: seq<PortUsage>, p: int)
    requires IsListing(m, es)
    ensures Amount(es, p) == Holds(m, p)
  {
    if p in m {
      var i :| 0 <= i < |es| && es[i] == PortUsage(p, m[p]);
      AmountAt(es, i);
    } else {
      AmountAbsent(es, p);
    }
  }

  lemma NoMember(s: set<int>)
    requires forall p :: p !in s
    ensures s == {}
  {
    assert forall p :: p in s <==> p in ({});
  }

  lemma HasMember(s: set<int>)
    requires s != {}
    ensures exists p :: p in s
  {
    if forall p :: p !in s { NoMember(s); }
  }

  /** Ranging over a map. */
  method List(m: map<int, nat>) returns (es: seq<PortUsage>)
    ensures IsListing(m, es)
  {
    es := [];
    var rest := m.Keys;
    while rest != {}
      invariant Distinct(es) && rest <= m.Keys
      invariant forall i :: 0 <= i < |es| ==> es[i].port in m && m[es[i].port] == es[i].usage && es[i].port !in rest
      invariant forall p :: p in m ==> p in rest || PortUsage(p, m[p]) in es
      decreases |rest|
    {
      HasMember(rest);
      var p :| p in rest;
      es := es + [PortUsage(p, m[p])];
      rest := rest - {p};
    }
  }

  // ---- Merging ----

  /** Entries of the file, by port. */
  function FromFile(es: seq<PortUsage>): map<int, nat>
    decreases |es|
  {
    if es == [] then map[] else FromFile(es[..|es| - 1])[es[|es| - 1].port := es[|es| - 1].usage]
  }

  function AddOne(m: map<int, nat>, e: PortUsage): map<int, nat> { m[e.port := Holds(m, e.port) + e.usage] }

  /** Entries added to a map. */
  function AddAll(m: map<int, nat>, es: seq<PortUsage>): map<int, nat>
    decreases |es|
  {
    if es == [] then m else AddOne(AddAll(m, es[..|es| - 1]), es[|es| - 1])
  }

  function Merged(existing: seq<PortUsage>, current: seq<PortUsage>): map<int, nat> {
    AddAll(FromFile(existing), current)
  }

  lemma {:induction false} FromFileHolds(es: seq<PortUsage>, p: int)
    requires Distinct(es)
    ensures Holds(FromFile(es), p) == Amount(es, p)
    decreases |es|
  {
    if es == [] {
    } else {
      FromFileHolds(es[..|es| - 1], p);
      if p == es[|es| - 1].port { AmountAbsent(es[..|es| - 1], p); }
    }
  }

  lemma {:induction false} AddAllHolds(m: map<int, nat>, es: seq<PortUsage>, p: int)
    ensures Holds(AddAll(m, es), p) == Holds(m, p) + Amount(es, p)
    decreases |es|
  {
    if es == [] {
    } else {
      AddAllHolds(m, es[..|es| - 1], p);
    }
  }

  lemma MergedHolds(existing: seq<PortUsage>, current: seq<PortUsage>, p: int)
    requires Distinct(existing)
    ensures Holds(Merged(existing, current), p) == Amount(existing + current, p)
  {
    FromFileHolds(existing, p);
    AddAllHolds(FromFile(existing), current, p);
    AmountAppend(existing, current, p);
  }

  lemma MergedAmount(existing: seq<PortUsage>, current: seq<PortUsage>, merged: seq<PortUsage>, p: int)
    requires Distinct(existing) && IsListing(Merged(existing, current), merged)
    ensures Amount(merged, p) == Amount(existing + current, p)
  {
    MergedHolds(existing, current, p);
    ListingAmount(Merged(existing, current), merged, p);
  }

  // ---- The machine ----

  datatype File = Missing | Good(entries: seq<PortUsage>) | Corrupt

  function Entries(f: File): seq<PortUsage> { if f.Good? then f.entries else [] }

  datatype Saver =
    | Idle
    | Loaded(existing: seq<PortUsage>)
    | Collected(existing: seq<PortUsage>, current: seq<PortUsage>)
    | Ready(existing: seq<PortUsage>, current: seq<PortUsage>, merged: seq<PortUsage>)

  /** How writing the file ends: complete, not begun, or with the file truncated. */
  datatype Outcome = Written | Unopened | Torn

  /** creating: page views that found no file and are about to create one. added and lost are
      histories. */
  datatype State = State(
    dataStore: map<int, nat>,
    totalTraffic: nat,
    file: File,
    saver: Saver,
    creating: nat,
    added: seq<PortUsage>,
    lost: seq<PortUsage>)

  datatype Event =
    | Add(port: int, usage: nat)
    | Load(ok: bool)
    | Collect(listing: seq<PortUsage>)
    | Merge(listing: seq<PortUsage>)
    | Write(outcome: Outcome)
    | Stat
    | Create(ok: bool, written: bool)

  function Init(file: File): State { State(map[], 0, file, Idle, 0, [], []) }

  function Next(s: State, e: Event): State {
    match e
    case Add(p, u) => s.(dataStore := AddOne(s.dataStore, PortUsage(p, u)), added := s.added + [PortUsage(p, u)])
    case Load(ok) =>
      if !s.saver.Idle? || s.file.Corrupt? || (s.file.Good? && !ok) then s
      else s.(saver := Loaded(Entries(s.file)))
    case Collect(listing) =>
      if s.saver.Loaded? && IsListing(s.dataStore, listing) then
        s.(dataStore := map[], saver := Collected(s.saver.existing, listing))
      else s
    case Merge(listing) =>
      if s.saver.Collected? && IsListing(Merged(s.saver.existing, s.saver.current), listing) then
        s.(totalTraffic := Total(listing), saver := Ready(s.saver.existing, s.saver.current, listing))
      else s
    case Write(outcome) =>
      if !s.saver.Ready? then s
      else
        (match outcome
        case Written => s.(file := Good(s.saver.merged), saver := Idle)
        case Unopened =>
          var kept := Entries(s.file) == s.saver.existing;
          var gone := if kept then s.saver.current else s.saver.existing + s.saver.current;
          s.(saver := Idle, lost := s.lost + gone)
        case Torn => s.(file := Corrupt, saver := Idle, lost := s.lost + (s.saver.existing + s.saver.current)))
    case Stat => if s.file.Missing? then s.(creating := s.creating + 1) else s
    case Create(ok, written) =>
      if s.creating == 0 then s
      else
        var s' := s.(creating := s.creating - 1);
        if !ok then s'
        else
          var s'' := s'.(file := if written then Good([]) else Corrupt);
          if s.saver.Idle? then s''.(lost := s.lost + Entries(s.file)) else s''
  }

  function Exec(s: State, es: seq<Event>): State
    decreases |es|
  {
    if es == [] then s else Exec(Next(s, es[0]), es[1..])
  }

  /** What the file holds, or will when the save in progress succeeds. */
  function OnDisk(s: State): seq<PortUsage> {
    match s.saver
    case Idle => Entries(s.file)
    case Loaded(existing) => existing
    case Collected(existing, current) => existing + current
    case Ready(existing, current, _) => existing + current
  }

  /** Nothing added is unaccounted for. */
  predicate Balanced(s: State, initial: seq<PortUsage>, p: int) {
    Holds(s.dataStore, p) + Amount(OnDisk(s), p) + Amount(s.lost, p) == Amount(initial, p) + Amount(s.added, p)
  }

  predicate Shape(s: State) {
    && Distinct(Entries(s.file))
    && (!s.saver.Idle? ==> Distinct(s.saver.existing) && Entries(s.file) in [[], s.saver.existing])
    && (s.saver.Ready? ==> IsListing(Merged(s.saver.existing, s.saver.current), s.saver.merged))
    && (s.saver.Ready? ==> s.totalTraffic == Total(s.saver.merged))
  }

  lemma ShapeNext(s: State, e: Event)
    requires Shape(s)
    ensures Shape(Next(s, e))
  {
  }

  lemma {:induction false} ShapeExec(s: State, es: seq<Event>)
    requires Shape(s)
    ensures Shape(Exec(s, es))
    decreases |es|
  {
    if es == [] {
    } else {
      ShapeNext(s, es[0]);
      ShapeExec(Next(s, es[0]), es[1..]);
    }
  }

  lemma BalancedSave(s: State, e: Event, initial: seq<PortUsage>, p: int)
    requires Shape(s) && Balanced(s, initial, p) && (e.Load? || e.Collect? || e.Merge?)
    ensures Balanced(Next(s, e), initial, p)
  {
    if e.Collect? && s.saver.Loaded? && IsListing(s.dataStore, e.listing) {
      ListingAmount(s.dataStore, e.listing, p);
      AmountAppend(s.saver.existing, e.listing, p);
    }
  }

  lemma BalancedWritten(s: State, initial: seq<PortUsage>, p: int)
    requires Shape(s) && Balanced(s, initial, p)
    ensures Balanced(Next(s, Write(Written)), initial, p)
  {
    if s.saver.Ready? {
      MergedAmount(s.saver.existing, s.saver.current, s.saver.merged, p);
      assert OnDisk(Next(s, Write(Written))) == s.saver.merged;
    }
  }

  /** A save that fails loses what it held and the file does not. */
  lemma BalancedFailure(s: State, outcome: Outcome, initial: seq<PortUsage>, p: int)
    requires Shape(s) && Balanced(s, initial, p) && outcome != Written
    ensures Balanced(Next(s, Write(outcome)), initial, p)
  {
    if s.saver.Ready? {
      var existing, current := s.saver.existing, s.saver.current;
      var gone := if outcome.Unopened? && Entries(s.file) == existing then current else existing + current;
      assert Next(s, Write(outcome)).lost == s.lost + gone;
      AmountAppend(existing, current, p);
      AmountAppend(s.lost, gone, p);
    }
  }

  lemma BalancedWrite(s: State, outcome: Outcome, initial: seq<PortUsage>, p: int)
    requires Shape(s) && Balanced(s, initial, p)
    ensures Balanced(Next(s, Write(outcome)), initial, p)
  {
    if outcome == Written { BalancedWritten(s, initial, p); } else { BalancedFailure(s, outcome, initial, p); }
  }

  lemma BalancedAdd(s: State, port: int, usage: nat, initial: seq<PortUsage>, p: int)
    requires Balanced(s, initial, p)
    ensures Balanced(Next(s, Add(port, usage)), initial, p)
  {
    AmountOne(s.added, PortUsage(port, usage), p);
  }

  lemma BalancedCreate(s: State, ok: bool, written: bool, initial: seq<PortUsage>, p: int)
    requires Balanced(s, initial, p)
    ensures Balanced(Next(s, Create(ok, written)), initial, p)
  {
    var s' := Next(s, Create(ok, written));
    if s.creating > 0 && ok && s.saver.Idle? {
      AmountAppend(s.lost, Entries(s.file), p);
      assert OnDisk(s') == [];
    } else {
      assert OnDisk(s') == OnDisk(s) && s'.lost == s.lost;
    }
  }

  lemma BalancedNext(s: State, e: Event, initial: seq<PortUsage>, p: int)
    requires Shape(s) && Balanced(s, initial, p)
    ensures Balanced(Next(s, e), initial, p)
  {
    match e
    case Add(port, usage) => BalancedAdd(s, port, usage, initial, p);
    case Write(outcome) => BalancedWrite(s, outcome, initial, p);
    case Create(ok, written) => BalancedCreate(s, ok, written, initial, p);
    case Stat =>
    case _ => BalancedSave(s, e, initial, p);
  }

  lemma {:induction false} BalancedExec(s: State, es: seq<Event>, initial: seq<PortUsage>, p: int)
    requires Shape(s) && Balanced(s, initial, p)
    ensures Balanced(Exec(s, es), initial, p)
    decreases |es|
  {
    if es == [] {
    } else {
      BalancedNext(s, es[0], initial, p);
      ShapeNext(s, es[0]);
      BalancedExec(Next(s, es[0]), es[1..], initial, p);
    }
  }

  /** What the relays add in a run. */
  function Additions(es: seq<Event>): seq<PortUsage> {
    if es == [] then [] else Addition(es[0]) + Additions(es[1..])
  }

  function Addition(e: Event): seq<PortUsage> { if e.Add? then [PortUsage(e.port, e.usage)] else [] }

  lemma AddedNext(s: State, e: Event)
    ensures Next(s, e).added == s.added + Addition(e)
  {
  }

  lemma Assoc(a: seq<PortUsage>, b: seq<PortUsage>, c: seq<PortUsage>)
    ensures (a + b) + c == a + (b + c)
  {
  }

  lemma {:induction false} AddedExec(s: State, es: seq<Event>)
    ensures Exec(s, es).added == s.added + Additions(es)
    decreases |es|
  {
    if es == [] {
    } else {
      AddedNext(s, es[0]);
      AddedExec(Next(s, es[0]), es[1..]);
      Assoc(s.added, Addition(es[0]), Additions(es[1..]));
    }
  }

  /** In every run, for every port: what is in memory, in the file or in the save in progress,
      and lost to failures, is what the file began with and everything ever added. */
  lemma Conservation(file: File, es: seq<Event>, p: int)
    requires Distinct(Entries(file))
    ensures var s := Exec(Init(file), es);
      Holds(s.dataStore, p) + Amount(OnDisk(s), p) + Amount(s.lost, p)
      == Amount(Entries(file), p) + Amount(Additions(es), p)
  {
    BalancedExec(Init(file), es, Entries(file), p);
    AddedExec(Init(file), es);
    assert [] + Additions(es) == Additions(es);
  }

  /** In every run the file names no port twice, and a save that succeeds leaves totalTraffic
      equal to the sum of the file, with each port at its old amount plus what was collected. */
  lemma SaveExact(file: File, es: seq<Event>, p: int)
    requires Distinct(Entries(file))
    ensures var s := Exec(Init(file), es);
      && Distinct(Entries(s.file))
      && (s.saver.Ready? ==>
        var s' := Next(s, Write(Written));
        && s'.file.Good? && s'.totalTraffic == Sum(s'.file.entries, UsageOf)
        && Amount(s'.file.entries, p) == Amount(s.saver.existing, p) + Amount(s.saver.current, p))
  {
    ShapeExec(Init(file), es);
    var s := Exec(Init(file), es);
    if s.saver.Ready? {
      TotalIsSum(s.saver.merged);
      MergedAmount(s.saver.existing, s.saver.current, s.saver.merged, p);
      AmountAppend(s.saver.existing, s.saver.current, p);
    }
  }

  function UsageOf(e: PortUsage): nat { e.usage }

  lemma {:induction false} TotalIsSum(es: seq<PortUsage>)
    ensures Total(es) == Sum(es, UsageOf)
    decreases |es|
  {
    if es == [] {
    } else {
      var n := |es| - 1;
      TotalIsSum(es[..n]);
      SumAppend(es[..n], es[n], UsageOf);
      assert es == es[..n] + [es[n]];
    }
  }

  /** What a save loses that cannot write, per port, and what it leaves: if the file could not be
      opened it stays as it is, and what was collected is lost, together with what a page view has
      erased meanwhile; if the write broke off the file is corrupt and all is lost. */
  lemma SaveFails(file: File, es: seq<Event>, p: int)
    requires Distinct(Entries(file)) && Exec(Init(file), es).saver.Ready?
    ensures var s := Exec(Init(file), es); var unopened, torn := Next(s, Write(Unopened)), Next(s, Write(Torn));
      var existing, current := Amount(s.saver.existing, p), Amount(s.saver.current, p);
      && unopened.file == s.file && unopened.saver.Idle?
      && Amount(unopened.lost, p) == Amount(s.lost, p) + current + existing - Amount(Entries(s.file), p)
      && torn.file.Corrupt? && torn.saver.Idle?
      && Amount(torn.lost, p) == Amount(s.lost, p) + current + existing
  {
    ShapeExec(Init(file), es);
    var s := Exec(Init(file), es);
    var existing, current := s.saver.existing, s.saver.current;
    AmountAppend(existing, current, p);
    AmountAppend(s.lost, existing + current, p);
    AmountAppend(s.lost, current, p);
  }

  /** In every reachable state a save starts, when none is under way, exactly if there is no file or a
      file that can be read and decoded; it starts with what the file holds, and collects all that is
      in memory. */
  lemma SaveBegins(file: File, es: seq<Event>, ok: bool, listing: seq<PortUsage>, p: int)
    requires Distinct(Entries(file)) && Exec(Init(file), es).saver.Idle?
    requires IsListing(Exec(Init(file), es).dataStore, listing)
    ensures var s := Exec(Init(file), es); var s' := Next(Next(s, Load(ok)), Collect(listing));
      var begins := s.file.Missing? || (s.file.Good? && ok);
      && s'.file == s.file && s'.lost == s.lost
      && if begins then
           && s'.saver == Collected(Entries(s.file), listing) && s'.dataStore == map[]
           && Amount(s'.saver.current, p) == Holds(s.dataStore, p)
         else s' == s
  {
    ListingAmount(Exec(Init(file), es).dataStore, listing, p);
  }

  /** What the creation of the file by a page view does in any reachable state in which one is about
      to: the file is empty or, if the empty list could not be written, undecodable; what it held is
      lost unless a save has it in hand. */
  lemma CreateErases(file: File, es: seq<Event>, written: bool, p: int)
    requires Distinct(Entries(file)) && Exec(Init(file), es).creating > 0
    ensures var s := Exec(Init(file), es); var s' := Next(s, Create(true, written));
      && s'.file == (if written then Good([]) else Corrupt)
      && s'.saver == s.saver && s'.dataStore == s.dataStore
      && Amount(s'.lost, p) == Amount(s.lost, p) + if s.saver.Idle? then Amount(Entries(s.file), p) else 0
    ensures var s := Exec(Init(file), es); Next(s, Create(false, written)) == s.(creating := s.creating - 1)
  {
    AmountAppend(Exec(Init(file), es).lost, Entries(Exec(Init(file), es).file), p);
  }

  // ---- When something is lost ----

  /** Runs in which writing the file never fails. */
  predicate Writes(es: seq<Event>) {
    forall i :: 0 <= i < |es| && es[i].Write? ==> es[i].outcome == Written
  }

  lemma {:induction false} PresentKept(s: State, es: seq<Event>)
    requires !s.file.Missing? && s.creating == 0 && s.lost == [] && Writes(es)
    ensures Exec(s, es).lost == []
    decreases |es|
  {
    if es == [] {
    } else {
      PresentKept(Next(s, es[0]), es[1..]);
    }
  }

  lemma ExecCons(s: State, e: Event, es: seq<Event>)
    ensures Exec(s, [e] + es) == Exec(Next(s, e), es)
  {
    assert ([e] + es)[1..] == es;
  }

  /** One save of a single addition, from an empty ledger. */
  lemma SaveOne(s: State, e: PortUsage)
    requires s.file.Missing? && s.saver.Idle? && s.dataStore == map[e.port := e.usage]
    ensures Exec(s, [Load(true), Collect([e]), Merge([e]), Write(Written)]) == s.(
      dataStore := map[], totalTraffic := e.usage, file := Good([e]))
  {
    var m, one := map[e.port := e.usage], [e];
    assert one[..0] == [] && AddAll(map[], []) == map[] == FromFile([]);
    assert Merged([], one) == AddOne(map[], e) == m;
    assert Total(one) == Total(one[..0]) + e.usage == e.usage;
    assert e in one && IsListing(m, one);
    var s1 := Next(s, Load(true));
    var s2 := Next(s1, Collect(one));
    var s3 := Next(s2, Merge(one));
    ExecCons(s, Load(true), [Collect(one), Merge(one), Write(Written)]);
    ExecCons(s1, Collect(one), [Merge(one), Write(Written)]);
    ExecCons(s2, Merge(one), [Write(Written)]);
    ExecCons(s3, Write(Written), []);
  }

  lemma {:induction false} ExecAppend(s: State, es: seq<Event>, fs: seq<Event>)
    ensures Exec(s, es + fs) == Exec(Exec(s, es), fs)
    decreases |es|
  {
    if es == [] {
      assert es + fs == fs;
    } else {
      assert (es + fs)[0] == es[0] && (es + fs)[1..] == es[1..] + fs;
      ExecAppend(Next(s, es[0]), es[1..], fs);
    }
  }

  /** A page view finds no file, a save then writes one, and the page view truncates it. */
  lemma PageViewTruncates() returns (es: seq<Event>)
    ensures Writes(es) && Exec(Init(Missing), es).lost == [PortUsage(80, 5)]
  {
    var e := PortUsage(80, 5);
    var save := [Load(true), Collect([e]), Merge([e]), Write(Written)];
    es := [Stat] + ([Add(80, 5)] + (save + [Create(true, true)]));
    var s := Next(Init(Missing), Stat);
    var s' := Next(s, Add(80, 5));
    ExecCons(Init(Missing), Stat, [Add(80, 5)] + (save + [Create(true, true)]));
    ExecCons(s, Add(80, 5), save + [Create(true, true)]);
    ExecAppend(s', save, [Create(true, true)]);
    assert s'.dataStore == map[80 := 5];
    SaveOne(s', e);
    ExecCons(Exec(s', save), Create(true, true), []);
  }

  /** As long as writing the file succeeds nothing is ever lost, in any interleaving, exactly
      when the file was there from the start. */
  lemma NothingLost(file: File)
    ensures (forall es: seq<Event> :: Writes(es) ==> Exec(Init(file), es).lost == []) <==> !file.Missing?
  {
    if file.Missing? {
      var es := PageViewTruncates();
    } else {
      forall es: seq<Event> | Writes(es) ensures Exec(Init(file), es).lost == [] { PresentKept(Init(file), es); }
    }
  }

  /** A file that cannot be decoded stops every later save before it collects: the file stays as
      it is, and everything added from then on stays in memory. */
  lemma {:induction false} CorruptForever(s: State, es: seq<Event>, p: int)
    requires s.file.Corrupt? && s.saver.Idle? && s.creating == 0
    ensures var s' := Exec(s, es);
      && s'.file.Corrupt? && s'.saver.Idle? && s'.lost == s.lost
      && Holds(s'.dataStore, p) == Holds(s.dataStore, p) + Amount(Additions(es), p)
    decreases |es|
  {
    if es == [] {
    } else {
      var s' := Next(s, es[0]);
      CorruptForever(s', es[1..], p);
      AmountAppend(Addition(es[0]), Additions(es[1..]), p);
      if es[0].Add? { AddedAmount(s, es[0], p); }
    }
  }

  lemma AddedAmount(s: State, e: Event, p: int)
    requires e.Add?
    ensures Holds(Next(s, e).dataStore, p) == Holds(s.dataStore, p) + Amount(Addition(e), p)
  {
    AmountOne([], PortUsage(e.port, e.usage), p);
    assert [] + Addition(e) == Addition(e);
  }

  // ---- When saving stops ----

  lemma {:induction false} SomeListing(m: map<int, nat>, ports: set<int>) returns (es: seq<PortUsage>)
    requires ports <= m.Keys
    ensures Distinct(es)
    ensures forall i :: 0 <= i < |es| ==> es[i].port in ports && m[es[i].port] == es[i].usage
    ensures forall p :: p in ports ==> PortUsage(p, m[p]) in es
    decreases |ports|
  {
    if p :| p in ports {
      var rest := SomeListing(m, ports - {p});
      es := [PortUsage(p, m[p])] + rest;
      forall q | q in ports ensures PortUsage(q, m[q]) in es {
        if q == p { assert es[0] == PortUsage(q, m[q]); } else { assert PortUsage(q, m[q]) in rest; }
      }
    } else {
      es := [];
    }
  }

  lemma AnyListing(m: map<int, nat>) returns (es: seq<PortUsage>)
    ensures IsListing(m, es)
  {
    es := SomeListing(m, m.Keys);
  }

  /** No save is in progress, none will get past the file, and no page view is about to replace it. */
  predicate Halted(s: State) { s.file.Corrupt? && s.saver.Idle? && s.creating == 0 }

  /** In the state after these events the save in progress collects what is in memory. */
  predicate CollectsAfter(s: State, later: seq<Event>, listing: seq<PortUsage>) {
    var s' := Exec(s, later);
    s'.saver.Loaded? && IsListing(s'.dataStore, listing)
  }

  /** From an idle saver and a file that can be decoded, or made so, the next save collects. */
  lemma CollectsIdle(s: State) returns (later: seq<Event>, listing: seq<PortUsage>)
    requires s.saver.Idle? && !Halted(s)
    ensures CollectsAfter(s, later, listing)
  {
    var s1 := Next(s, Create(true, true));
    if s.file.Corrupt? {
      later := [Create(true, true)] + [Load(true)];
      ExecCons(s, Create(true, true), [Load(true)]);
      assert [Load(true)] == [Load(true)] + [];
      ExecCons(s1, Load(true), []);
    } else {
      later := [Load(true)] + [];
      ExecCons(s, Load(true), []);
    }
    listing := AnyListing(Exec(s, later).dataStore);
  }

  /** A save in progress can end well, and the next one collects. */
  lemma CollectsReady(s: State) returns (later: seq<Event>, listing: seq<PortUsage>)
    requires s.saver.Ready?
    ensures CollectsAfter(s, later, listing)
  {
    var s1 := Next(s, Write(Written));
    var rest;
    rest, listing := CollectsIdle(s1);
    later := [Write(Written)] + rest;
    ExecCons(s, Write(Written), rest);
  }

  lemma CollectsLater(s: State) returns (later: seq<Event>, listing: seq<PortUsage>)
    requires !Halted(s)
    ensures CollectsAfter(s, later, listing)
  {
    match s.saver
    case Idle => later, listing := CollectsIdle(s);
    case Loaded(_) =>
      later := [];
      listing := AnyListing(s.dataStore);
    case Collected(existing, current) =>
      var merged := AnyListing(Merged(existing, current));
      var rest;
      rest, listing := CollectsReady(Next(s, Merge(merged)));
      later := [Merge(merged)] + rest;
      ExecCons(s, Merge(merged), rest);
    case Ready(_, _, _) => later, listing := CollectsReady(s);
  }

  /** From every reachable state: some continuation collects what is in memory if and only if
      saving has not halted, that is, unless the file cannot be decoded, no save is in progress
      and no page view that found no file is about to create one. */
  lemma CollectsUnlessHalted(file: File, es: seq<Event>)
    ensures var s := Exec(Init(file), es);
      (exists later, listing :: CollectsAfter(s, later, listing)) <==> !Halted(s)
  {
    var s := Exec(Init(file), es);
    if Halted(s) {
      forall later, listing
        ensures !CollectsAfter(s, later, listing)
      {
        CorruptForever(s, later, 0);
      }
    } else {
      var later, listing := CollectsLater(s);
      assert CollectsAfter(s, later, listing);
    }
  }

  /** One write that fails halfway halts saving, whatever the file held and whatever was added. */
  lemma HaltReachable(file: File, port: int, usage: nat) returns (es: seq<Event>)
    requires !file.Corrupt?
    ensures Halted(Exec(Init(file), es)) && |Exec(Init(file), es).added| == 1
  {
    var s := Init(file);
    var s1 := Next(s, Add(port, usage));
    var s2 := Next(s1, Load(true));
    var listing := AnyListing(s2.dataStore);
    var s3 := Next(s2, Collect(listing));
    var merged := AnyListing(Merged(s3.saver.existing, s3.saver.current));
    var s4 := Next(s3, Merge(merged));
    es := [Add(port, usage)] + ([Load(true)] + ([Collect(listing)] + ([Merge(merged)] + ([Write(Torn)] + []))));
    ExecCons(s, Add(port, usage), [Load(true)] + ([Collect(listing)] + ([Merge(merged)] + ([Write(Torn)] + []))));
    ExecCons(s1, Load(true), [Collect(listing)] + ([Merge(merged)] + ([Write(Torn)] + [])));
    ExecCons(s2, Collect(listing), [Merge(merged)] + ([Write(Torn)] + []));
    ExecCons(s3, Merge(merged), [Write(Torn)] + []);
    ExecCons(s4, Write(Torn), []);
  }

  // ---- The page ----

  predicate Sorted(es: seq<PortUsage>) {
    forall i, j :: 0 <= i < j < |es| ==> es[i].port < es[j].port
  }

  ghost predicate SameEntries(es: seq<PortUsage>, fs: seq<PortUsage>) {
    forall e :: e in es <==> e in fs
  }

  /** A sorted list is determined by its entries. */
  lemma {:induction false} SortedUnique(es: seq<PortUsage>, fs: seq<PortUsage>)
    requires Sorted(es) && Sorted(fs) && SameEntries(es, fs)
    ensures es == fs
    decreases |es|
  {
    assert fs != [] ==> fs[0] in es;
    if es == [] {
      assert fs == [];
    } else {
      var n, m := |es| - 1, |fs| - 1;
      assert es[n] in fs && fs[m] in es;
      assert es[n] == fs[m];
      forall e ensures e in es[..n] <==> e in fs[..m] {
        assert e in es <==> e in fs;
        assert e in es[..n] ==> e.port < es[n].port;
        assert e in fs[..m] ==> e.port < fs[m].port;
      }
      SortedUnique(es[..n], fs[..m]);
    }
  }

  function Insert(es: seq<PortUsage>, e: PortUsage): (fs: seq<PortUsage>)
    requires Sorted(es) && forall i :: 0 <= i < |es| ==> es[i].port != e.port
    ensures Sorted(fs) && |fs| == |es| + 1 && forall x :: x in fs <==> x == e || x in es
    decreases |es|
  {
    if es == [] || es[|es| - 1].port < e.port then es + [e]
    else
      var last := es[|es| - 1];
      var fs := Insert(es[..|es| - 1], e);
      assert forall x :: x in es <==> x == last || x in es[..|es| - 1];
      assert forall i :: 0 <= i < |fs| ==> fs[i] in fs;
      fs + [last]
  }

  /** The file's entries as the page shows them. */
  function ByPort(es: seq<PortUsage>): (fs: seq<PortUsage>)
    requires Distinct(es)
    ensures Sorted(fs) && SameEntries(es, fs) && |fs| == |es|
    decreases |es|
  {
    if es == [] then []
    else
      var last := es[|es| - 1];
      var rest := ByPort(es[..|es| - 1]);
      assert forall x :: x in es <==> x == last || x in es[..|es| - 1];
      assert forall i :: 0 <= i < |rest| ==> rest[i] in es[..|es| - 1];
      Insert(rest, last)
  }

  /** The page does not depend on the order in which the maps were ranged over, nor on how the
      sort treats equal ports: any sorted rearrangement of any listing is the same list. */
  lemma PageDetermined(m: map<int, nat>, es: seq<PortUsage>, fs: seq<PortUsage>, page: seq<PortUsage>)
    requires IsListing(m, es) && IsListing(m, fs) && Sorted(page) && SameEntries(page, fs)
    ensures page == ByPort(es)
  {
    forall e ensures e in es <==> e in fs {
      if e in es { assert e == PortUsage(e.port, m[e.port]); }
      if e in fs { assert e == PortUsage(e.port, m[e.port]); }
    }
    forall e ensures e in page <==> e in ByPort(es) {
      assert e in page <==> e in fs;
      assert e in es <==> e in ByPort(es);
    }
    SortedUnique(page, ByPort(es));
  }

  // ---- The store ----

  /** saver holds the local variables of the save in progress, file what snifferLog holds. */
  class Usage {
    var dataStore: map<int, nat>
    var totalTraffic: nat
    var file: File
    var saver: Saver
    var creating: nat
    ghost var added: seq<PortUsage>
    ghost var lost: seq<PortUsage>

    ghost function View(): State
      reads this
    {
      State(dataStore, totalTraffic, file, saver, creating, added, lost)
    }

    constructor (file: File)
      ensures View() == Init(file)
    {
      dataStore, totalTraffic, this.file, saver, creating := map[], 0, file, Idle, 0;
      added, lost := [], [];
    }

    method AddOrUpdatePort(port: int, usage: nat)
      modifies this
      ensures View() == Next(old(View()), Add(port, usage))
    {
      if port in dataStore {
        dataStore := dataStore[port := dataStore[port] + usage];
      } else {
        dataStore := dataStore[port := usage];
      }
      added := added + [PortUsage(port, usage)];
    }

    /** Decodes the file; false when the save ends here, before it has collected anything. */
    method LoadFile(ok: bool) returns (loaded: bool)
      requires saver.Idle?
      modifies this
      ensures View() == Next(old(View()), Load(ok)) && loaded == saver.Loaded?
    {
      loaded := file.Missing? || (file.Good? && ok);
      if loaded { saver := Loaded(if file.Good? then file.entries else []); }
    }

    /** Empties the store into a list, under the lock. */
    method CollectUsageData() returns (usageData: seq<PortUsage>)
      requires saver.Loaded?
      modifies this
      ensures View() == Next(old(View()), Collect(usageData)) && saver == Collected(old(saver).existing, usageData)
    {
      usageData := List(dataStore);
      dataStore := map[];
      saver := Collected(saver.existing, usageData);
    }

    /** The map without duplicates of what the file held and what was collected. */
    method Combine(existing: seq<PortUsage>, current: seq<PortUsage>) returns (usageMap: map<int, nat>)
      ensures usageMap == Merged(existing, current)
    {
      usageMap := map[];
      for i := 0 to |existing|
        invariant usageMap == FromFile(existing[..i])
      {
        assert existing[..i + 1][..i] == existing[..i];
        usageMap := usageMap[existing[i].port := existing[i].usage];
      }
      assert existing[..|existing|] == existing;
      for i := 0 to |current|
        invariant usageMap == AddAll(FromFile(existing), current[..i])
      {
        assert current[..i + 1][..i] == current[..i];
        var e := current[i];
        if e.port in usageMap {
          usageMap := usageMap[e.port := usageMap[e.port] + e.usage];
        } else {
          usageMap := usageMap[e.port := e.usage];
        }
      }
      assert current[..|current|] == current;
    }

    /** Merges what was collected with what the file held. */
    method MergeUsageData() returns (merged: seq<PortUsage>)
      requires saver.Collected?
      modifies this
      ensures View() == Next(old(View()), Merge(merged))
      ensures saver == Ready(old(saver).existing, old(saver).current, merged)
    {
      var existing, current := saver.existing, saver.current;
      var usageMap := Combine(existing, current);
      merged := List(usageMap);
      totalTraffic := 0;
      for i := 0 to |merged|
        invariant totalTraffic == Total(merged[..i])
        invariant View() == old(View()).(totalTraffic := totalTraffic)
      {
        assert merged[..i + 1][..i] == merged[..i];
        totalTraffic := totalTraffic + merged[i].usage;
      }
      assert merged[..|merged|] == merged;
      saver := Ready(existing, current, merged);
    }

    method WriteFile(outcome: Outcome)
      requires saver.Ready?
      modifies this
      ensures View() == Next(old(View()), Write(outcome))
    {
      var existing, current, merged := saver.existing, saver.current, saver.merged;
      saver := Idle;
      match outcome
      case Written => file := Good(merged);
      case Unopened => lost := lost + if Entries(file) == existing then current else existing + current;
      case Torn =>
        file := Corrupt;
        lost := lost + (existing + current);
    }

    /** A save that nothing interrupts. */
    method SaveUsageData(ok: bool, outcome: Outcome) returns (current: seq<PortUsage>, merged: seq<PortUsage>)
      requires saver.Idle?
      modifies this
      ensures View() == Exec(old(View()), [Load(ok), Collect(current), Merge(merged), Write(outcome)])
    {
      ghost var s0 := View();
      current, merged := [], [];
      var loaded := LoadFile(ok);
      ghost var s1 := View();
      if loaded { current := CollectUsageData(); }
      ghost var s2 := View();
      if loaded { merged := MergeUsageData(); }
      ghost var s3 := View();
      if loaded { WriteFile(outcome); }
      ExecCons(s0, Load(ok), [Collect(current), Merge(merged), Write(outcome)]);
      ExecCons(s1, Collect(current), [Merge(merged), Write(outcome)]);
      ExecCons(s2, Merge(merged), [Write(outcome)]);
      ExecCons(s3, Write(outcome), []);
    }

    /** A page view's first look: true when it finds no file. */
    method StatFile() returns (missing: bool)
      modifies this
      ensures View() == Next(old(View()), Stat) && missing == old(file).Missing?
    {
      missing := file.Missing?;
      if missing { creating := creating + 1; }
    }

    /** A page view that found no file creates one, or empties the one written meanwhile. */
    method CreateFile(ok: bool, written: bool)
      requires creating > 0
      modifies this
      ensures View() == Next(old(View()), Create(ok, written))
    {
      creating := creating - 1;
      if ok {
        if saver.Idle? { lost := lost + Entries(file); }
        file := if written then Good([]) else Corrupt;
      }
    }

    /** What a page view shows of a file that it found. */
    method ReadPage() returns (page: seq<PortUsage>)
      requires Distinct(Entries(file))
      ensures Sorted(page) && SameEntries(page, Entries(file))
    {
      page := if file.Good? then ByPort(file.entries) else [];
    }
  }
}
