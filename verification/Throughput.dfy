/** ThroughputAccumulator (throughput.py): socket counters folded into
    per-feeder totals. */
module Throughput {
  import opened Bytes
  import opened Address
  import opened Feeders
  import opened FeederTables
  import opened Netdiag

  datatype Direction = Sent | Received

  function Pick(t: Traffic, d: Direction): nat {
    match d
    case Sent => t.sent
    case Received => t.received
  }

  function Plus(a: Traffic, b: Traffic): Traffic {
    Traffic(a.sent + b.sent, a.received + b.received)
  }

  function Monus(a: nat, b: nat): nat {
    if a < b then 0 else a - b
  }

  /** last: the counters last folded in, by inode. totals: by feeder key. */
  datatype Accum = Accum(last: map<nat, Traffic>, totals: map<string, Traffic>)

  type Attribution = map<nat, string>

  /** Only a listed socket with a feeder and a non-loopback peer is folded in. */
  predicate Counted(s: SockStat, attr: Attribution) {
    !IsLoopback(s.remoteIp) && s.inode in attr
  }

  function Total(totals: map<string, Traffic>, key: string): Traffic {
    if key in totals then totals[key] else NOTHING
  }

  /** What one listed socket adds: its counters, less what was folded in before
      under the same inode, never below nothing. */
  function Delta(last: map<nat, Traffic>, s: SockStat): Traffic {
    if s.inode !in last then s.traffic
    else Traffic(Monus(s.traffic.sent, last[s.inode].sent), Monus(s.traffic.received, last[s.inode].received))
  }

  function FoldSock(a: Accum, s: SockStat, attr: Attribution): Accum {
    if !Counted(s, attr) then a
    else
      var key := attr[s.inode];
      Accum(a.last[s.inode := s.traffic], a.totals[key := Plus(Total(a.totals, key), Delta(a.last, s))])
  }

  function FoldAll(a: Accum, socks: seq<SockStat>, attr: Attribution): Accum
    decreases |socks|
  {
    if socks == [] then a else FoldAll(FoldSock(a, socks[0], attr), socks[1..], attr)
  }

  function Inodes(socks: seq<SockStat>): set<nat> {
    set s <- socks :: s.inode
  }

  /** An empty dump forgets nothing; any other forgets every inode not listed. */
  function Prune<T>(last: map<nat, T>, socks: seq<SockStat>): map<nat, T> {
    if socks == [] then last else map i | i in last && i in Inodes(socks) :: last[i]
  }

  /** One poll. */
  function Update(a: Accum, socks: seq<SockStat>, attr: Attribution): Accum {
    var folded := FoldAll(a, socks, attr);
    Accum(Prune(folded.last, socks), folded.totals)
  }

  lemma {:induction false} FoldAllConcat(a: Accum, xs: seq<SockStat>, ys: seq<SockStat>, attr: Attribution)
    ensures FoldAll(a, xs + ys, attr) == FoldAll(FoldAll(a, xs, attr), ys, attr)
    decreases |xs|
  {
    if xs == [] {
      assert xs + ys == ys;
    } else {
      assert (xs + ys)[1..] == xs[1..] + ys;
      FoldAllConcat(FoldSock(a, xs[0], attr), xs[1..], ys, attr);
    }
  }

  lemma FoldSnoc(a: Accum, socks: seq<SockStat>, n: nat, attr: Attribution)
    requires n < |socks|
    ensures FoldAll(a, socks[..n + 1], attr) == FoldSock(FoldAll(a, socks[..n], attr), socks[n], attr)
  {
    var one := [socks[n]];
    assert socks[..n + 1] == socks[..n] + one;
    FoldAllConcat(a, socks[..n], one, attr);
    assert one[1..] == [];
  }

  /** The processes on this host, and the sockets a set of them owns. */
  datatype Processes = Processes(cmdByPid: map<nat, string>, provider: set<nat> -> set<nat>)

  /** The sockets a table row accounts for: those its processes own, if it is an
      enabled kernel-throughput feeder. */
  function Owned(row: Client, options: Options, p: Processes): set<nat> {
    if row.key in THROUGHPUT_KERNEL && Enabled(options, row.flag)
    then p.provider(PidsOf(p.cmdByPid, row.token))
    else {}
  }

  /** Row j owns the inode. */
  predicate Owns(rows: seq<Client>, options: Options, p: Processes, inode: nat, j: nat)
    requires j < |rows|
  {
    inode in Owned(rows[j], options, p)
  }

  /** Which of the first n rows owns the inode, if any: the last such row. */
  function LastOwner(rows: seq<Client>, options: Options, p: Processes, n: nat, inode: nat): (j: Option<nat>)
    requires n <= |rows|
    ensures j == None <==> forall k: nat :: k < n ==> !Owns(rows, options, p, inode, k)
    ensures j.Some? ==> j.value < n && Owns(rows, options, p, inode, j.value)
                        && forall k: nat :: j.value < k < n ==> !Owns(rows, options, p, inode, k)
  {
    if n == 0 then None
    else if Owns(rows, options, p, inode, n - 1) then Some(n - 1)
    else LastOwner(rows, options, p, n - 1, inode)
  }

  /** The feeder of the row that owns the inode. */
  function OwnerKey(rows: seq<Client>, options: Options, p: Processes, n: nat, inode: nat): Option<string>
    requires n <= |rows|
  {
    var j := LastOwner(rows, options, p, n, inode);
    if j == None then None else Some(rows[j.value].key)
  }

  /** The first n rows have been gone through. */
  ghost predicate AttributedUpTo(rows: seq<Client>, options: Options, p: Processes, n: nat, attr: Attribution)
    requires n <= |rows|
  {
    forall inode :: KeyOf(attr, inode) == OwnerKey(rows, options, p, n, inode)
  }

  /** Which feeder of the table each inode belongs to: of the rows that own it,
      the last. */
  method InodeToKey(rows: seq<Client>, options: Options, p: Processes) returns (out: Attribution)
    ensures Attributed(rows, options, p, out)
  {
    out := map[];
    for n := 0 to |rows|
      invariant AttributedUpTo(rows, options, p, n, out)
    {
      var row := rows[n];
      var inodes := {};
      if row.key in THROUGHPUT_KERNEL && Enabled(options, row.flag) {
        inodes := p.provider(PidsOf(p.cmdByPid, row.token));
      }
      AttributeRow(rows, options, p, n, out, inodes);
      out := AttributeAll(out, inodes, row.key);
    }
  }

  lemma AttributeRow(rows: seq<Client>, options: Options, p: Processes, n: nat, out: Attribution, inodes: set<nat>)
    requires n < |rows| && AttributedUpTo(rows, options, p, n, out) && inodes == Owned(rows[n], options, p)
    ensures AttributedUpTo(rows, options, p, n + 1, AttributeAll(out, inodes, rows[n].key))
  {
    var after := AttributeAll(out, inodes, rows[n].key);
    forall inode ensures KeyOf(after, inode) == OwnerKey(rows, options, p, n + 1, inode) {
      OwnerStep(rows, options, p, n, inode);
      assert KeyOf(out, inode) == OwnerKey(rows, options, p, n, inode);
    }
  }

  function KeyOf(attr: Attribution, inode: nat): Option<string> {
    if inode in attr then Some(attr[inode]) else None
  }

  lemma OwnerStep(rows: seq<Client>, options: Options, p: Processes, n: nat, inode: nat)
    requires n < |rows|
    ensures OwnerKey(rows, options, p, n + 1, inode)
         == if inode in Owned(rows[n], options, p) then Some(rows[n].key) else OwnerKey(rows, options, p, n, inode)
  {
    assert Owns(rows, options, p, inode, n) <==> inode in Owned(rows[n], options, p);
  }

  function AttributeAll(out: Attribution, inodes: set<nat>, key: string): (r: Attribution)
    ensures forall i :: i in r <==> i in out || i in inodes
    ensures forall i :: i in r ==> r[i] == if i in inodes then key else out[i]
  {
    out + map i | i in inodes :: key
  }

  class ThroughputAccumulator {
    var last: map<nat, Traffic>
    var totals: map<string, Traffic>

    function State(): Accum
      reads this
    {
      Accum(last, totals)
    }

    constructor ()
      ensures State() == Accum(map[], map[])
    {
      last, totals := map[], map[];
    }

    method Poll(socks: seq<SockStat>, attr: Attribution) returns (result: map<string, Traffic>)
      modifies this
      ensures State() == Update(old(State()), socks, attr)
      ensures result == totals
    {
      Fold(socks, attr);
      if socks != [] {
        Forget(socks);
      }
      result := totals;
    }

    method Fold(socks: seq<SockStat>, attr: Attribution)
      modifies this
      ensures State() == FoldAll(old(State()), socks, attr)
    {
      assert socks[..0] == [] && socks[..|socks|] == socks;
      for n := 0 to |socks|
        invariant State() == FoldAll(old(State()), socks[..n], attr)
      {
        FoldSnoc(old(State()), socks, n, attr);
        FoldOne(socks[n], attr);
      }
    }

    method FoldOne(s: SockStat, attr: Attribution)
      modifies this
      ensures State() == FoldSock(old(State()), s, attr)
    {
      if IsLoopback(s.remoteIp) {
        return;
      }
      if s.inode !in attr {
        return;
      }
      var key := attr[s.inode];
      var delta := SinceLast(s);
      last := last[s.inode := s.traffic];
      var total := if key in totals then totals[key] else Traffic(0, 0);
      totals := totals[key := Traffic(total.sent + delta.sent, total.received + delta.received)];
    }

    /** What the socket carried since it was last folded in. */
    method SinceLast(s: SockStat) returns (delta: Traffic)
      ensures delta == Delta(last, s)
    {
      delta := s.traffic;
      if s.inode in last {
        var prev := last[s.inode];
        delta := Traffic(
          if s.traffic.sent >= prev.sent then s.traffic.sent - prev.sent else 0,
          if s.traffic.received >= prev.received then s.traffic.received - prev.received else 0);
      }
    }

    /** Drops every record that no listed socket stands for. */
    method Forget(socks: seq<SockStat>)
      requires socks != []
      modifies this`last
      ensures last == Prune(old(last), socks)
    {
      var present := set s <- socks :: s.inode;
      var pending := last.Keys;
      while pending != {}
        invariant pending <= old(last).Keys
        invariant last == map i | i in old(last) && (i in pending || i in present) :: old(last)[i]
        decreases |pending|
      {
        var inode :| inode in pending;
        if inode !in present {
          last := last - {inode};
        }
        pending := pending - {inode};
      }
    }
  }

  // ---------------------------------------------------------------- peers on this machine

  /** The listed sockets whose peer is on another machine. */
  function Far(socks: seq<SockStat>): seq<SockStat> {
    if socks == [] then [] else (if IsLoopback(socks[0].remoteIp) then [] else [socks[0]]) + Far(socks[1..])
  }

  /** Sockets with a loopback peer are as good as not listed when folding. */
  lemma {:induction false} FoldsFarOnly(a: Accum, socks: seq<SockStat>, attr: Attribution)
    ensures FoldAll(a, socks, attr) == FoldAll(a, Far(socks), attr)
    decreases |socks|
  {
    if socks != [] {
      var rest := Far(socks[1..]);
      if IsLoopback(socks[0].remoteIp) {
        assert Far(socks) == rest;
        FoldsFarOnly(a, socks[1..], attr);
      } else {
        assert Far(socks)[0] == socks[0] && Far(socks)[1..] == rest;
        FoldsFarOnly(FoldSock(a, socks[0], attr), socks[1..], attr);
      }
    }
  }

  /** So a dump of none but those changes no total, whatever the attribution. */
  lemma NearAddsNothing(a: Accum, socks: seq<SockStat>, attr: Attribution)
    requires forall s <- socks :: IsLoopback(s.remoteIp)
    ensures Update(a, socks, attr).totals == a.totals
  {
    FoldsFarOnly(a, socks, attr);
    NoneFar(socks);
  }

  lemma {:induction false} NoneFar(socks: seq<SockStat>)
    requires forall s <- socks :: IsLoopback(s.remoteIp)
    ensures Far(socks) == []
  {
    if socks != [] {
      NoneFar(socks[1..]);
    }
  }

  /** With numbers: 5 bytes to 127.0.0.1 give no total. */
  lemma FiveBytesHomeCountNothing()
    ensures var s := SockStat([127, 0, 0, 1], 30005, 7, Traffic(5, 0));
            Update(Accum(map[], map[]), [s], map[7 := "piaware"]).totals == map[]
  {
    NearAddsNothing(Accum(map[], map[]), [SockStat([127, 0, 0, 1], 30005, 7, Traffic(5, 0))], map[7 := "piaware"]);
  }

  // ---------------------------------------------------------------- totals only grow

  ghost predicate NoLess(before: map<string, Traffic>, after: map<string, Traffic>) {
    forall k :: k in before ==>
      k in after && before[k].sent <= after[k].sent && before[k].received <= after[k].received
  }

  lemma NoLessTransitive(a: map<string, Traffic>, b: map<string, Traffic>, c: map<string, Traffic>)
    requires NoLess(a, b) && NoLess(b, c)
    ensures NoLess(a, c)
  {
  }

  lemma {:induction false} FoldNeverDecreases(a: Accum, socks: seq<SockStat>, attr: Attribution)
    ensures NoLess(a.totals, FoldAll(a, socks, attr).totals)
    decreases |socks|
  {
    if socks != [] {
      var b := FoldSock(a, socks[0], attr);
      assert NoLess(a.totals, b.totals);
      FoldNeverDecreases(b, socks[1..], attr);
      NoLessTransitive(a.totals, b.totals, FoldAll(b, socks[1..], attr).totals);
    }
  }

  /** Whatever the dump and the attribution, no feeder's total decreases. */
  lemma TotalsNeverDecrease(a: Accum, socks: seq<SockStat>, attr: Attribution)
    ensures NoLess(a.totals, Update(a, socks, attr).totals)
  {
    FoldNeverDecreases(a, socks, attr);
  }

  // ---------------------------------------------------------------- whose totals there are

  lemma {:induction false} FoldKeysWithin(a: Accum, socks: seq<SockStat>, attr: Attribution, allowed: set<string>)
    requires a.totals.Keys <= allowed && attr.Values <= allowed
    ensures FoldAll(a, socks, attr).totals.Keys <= allowed
    decreases |socks|
  {
    if socks != [] {
      if Counted(socks[0], attr) {
        assert attr[socks[0].inode] in attr.Values;
      }
      FoldKeysWithin(FoldSock(a, socks[0], attr), socks[1..], attr, allowed);
    }
  }

  /** Feeders that may have a total: enabled ones measured by the kernel. */
  predicate Measured(rows: seq<Client>, options: Options, key: string) {
    exists row <- rows :: row.key == key && key in THROUGHPUT_KERNEL && Enabled(options, row.flag)
  }

  ghost predicate AllMeasured(rows: seq<Client>, options: Options, totals: map<string, Traffic>) {
    forall key <- totals :: Measured(rows, options, key)
  }

  /** What InodeToKey gives. */
  ghost predicate Attributed(rows: seq<Client>, options: Options, p: Processes, attr: Attribution) {
    AttributedUpTo(rows, options, p, |rows|, attr)
  }

  /** The row's feeder is switched on and measured by the kernel, and one of the
      processes whose command line mentions it has the socket. */
  ghost predicate HasSocket(row: Client, options: Options, p: Processes, inode: nat) {
    && row.key in THROUGHPUT_KERNEL && Enabled(options, row.flag)
    && inode in p.provider(set pid | pid in p.cmdByPid && Contains(p.cmdByPid[pid], row.token))
  }

  /** An inode has a feeder if and only if some row's feeder has the socket, and
      then it is such a row's. */
  lemma AttributedExactly(rows: seq<Client>, options: Options, p: Processes, attr: Attribution, inode: nat)
    requires Attributed(rows, options, p, attr)
    ensures inode in attr <==> exists row <- rows :: HasSocket(row, options, p, inode)
    ensures inode in attr ==> exists row <- rows :: HasSocket(row, options, p, inode) && row.key == attr[inode]
  {
    assert KeyOf(attr, inode) == OwnerKey(rows, options, p, |rows|, inode);
    var j := LastOwner(rows, options, p, |rows|, inode);
    if j.Some? {
      assert rows[j.value] in rows && HasSocket(rows[j.value], options, p, inode);
    } else if row :| row in rows && HasSocket(row, options, p, inode) {
      var k: nat :| k < |rows| && rows[k] == row;
      assert Owns(rows, options, p, inode, k);
      assert false;
    }
  }

  lemma UpdateMeasured(rows: seq<Client>, options: Options, p: Processes, attr: Attribution, a: Accum, socks: seq<SockStat>)
    requires Attributed(rows, options, p, attr) && AllMeasured(rows, options, a.totals)
    ensures AllMeasured(rows, options, Update(a, socks, attr).totals)
  {
    forall key | key in attr.Values ensures Measured(rows, options, key) {
      var inode :| inode in attr && attr[inode] == key;
      assert KeyOf(attr, inode) == OwnerKey(rows, options, p, |rows|, inode);
      var j := LastOwner(rows, options, p, |rows|, inode).value;
      assert rows[j] in rows && inode in Owned(rows[j], options, p);
    }
    FoldKeysWithin(a, socks, attr, a.totals.Keys + attr.Values);
  }

  /** What one poll finds. */
  datatype Look = Look(processes: Processes, attr: Attribution, socks: seq<SockStat>)

  /** A run of polls from the start. */
  function Polled(looks: seq<Look>): Accum {
    if looks == [] then Accum(map[], map[])
    else
      var look := looks[|looks| - 1];
      Update(Polled(looks[..|looks| - 1]), look.socks, look.attr)
  }

  /** In every run under fixed options, whatever processes and sockets come and
      go, only enabled feeders measured by the kernel ever have a total. */
  lemma {:induction false} OnlyMeasured(rows: seq<Client>, options: Options, looks: seq<Look>)
    requires forall look <- looks :: Attributed(rows, options, look.processes, look.attr)
    ensures AllMeasured(rows, options, Polled(looks).totals)
  {
    if looks != [] {
      var n := |looks| - 1;
      OnlyMeasured(rows, options, looks[..n]);
      UpdateMeasured(rows, options, looks[n].processes, looks[n].attr, Polled(looks[..n]), looks[n].socks);
    }
  }
}
