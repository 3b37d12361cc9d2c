/** Runs in which the accumulator goes wrong: half a dump, an inode number retaken
    too early, a dump cut short. */
module ThroughputFailures {
  import opened Bytes
  import opened Address
  import opened Netdiag
  import opened NetdiagDump
  import opened Throughput
  import opened ThroughputRuns

  // ---------------------------------------------------------------- half a dump

  lemma PollBoth(a: Accum, s: SockStat, t: SockStat, attr: Attribution, key: string)
    requires Counted(s, attr) && Counted(t, attr) && attr[s.inode] == attr[t.inode] == key && s.inode != t.inode
    requires a.last.Keys <= {s.inode, t.inode}
    ensures Update(a, [s, t], attr)
         == Accum(map[s.inode := s.traffic, t.inode := t.traffic],
                  a.totals[key := Plus(Plus(Total(a.totals, key), Delta(a.last, s)), Delta(a.last, t))])
  {
    var two, one := [s, t], [t];
    assert two[1..] == one && one[1..] == [];
    var b := FoldSock(a, s, attr);
    var c := FoldSock(b, t, attr);
    assert FoldAll(b, one, attr) == c;
    assert FoldAll(a, two, attr) == c;
    assert Delta(b.last, t) == Delta(a.last, t);
    assert s.inode in Inodes(two) && t.inode in Inodes(two) by { assert two[0] == s && two[1] == t; }
    assert c.last == map[s.inode := s.traffic, t.inode := t.traffic];
    assert Prune(c.last, two) == c.last;
  }

  /** A socket that one dump lists, the next does not and the third does again
      counts twice. */
  lemma ThreePolls(a: Accum, s: SockStat, t: SockStat, attr: Attribution, key: string)
    requires Counted(s, attr) && Counted(t, attr) && attr[s.inode] == attr[t.inode] == key && s.inode != t.inode
    requires a == Accum(map[], map[]) && t.traffic == NOTHING
    ensures Update(Update(Update(a, [s, t], attr), [t], attr), [s, t], attr).totals
         == map[key := Plus(s.traffic, s.traffic)]
  {
    PollBoth(a, s, t, attr, key);
    var b := Update(a, [s, t], attr);
    var one := [t];
    assert one[1..] == [] && t.inode in Inodes(one) by { assert one[0] == t; }
    var c := Update(b, one, attr);
    assert FoldAll(b, one, attr) == FoldSock(b, t, attr);
    assert c.last == map[t.inode := NOTHING] && c.totals == map[key := s.traffic];
    PollBoth(c, s, t, attr, key);
  }

  /** Two sockets of one feeder, one of which carries something; the second of
      three dumps misses that one. */
  function HalfDump(i: nat, j: nat, remote: seq<Byte>, port: nat, more: Traffic, key: string): seq<Event> {
    var s, t := SockStat(remote, port, i, more), SockStat(remote, port, j, NOTHING);
    var attr := map[i := key, j := key];
    [Open(i, remote, port), Open(j, remote, port), Carry(i, more), Poll([s, t], attr), Poll([t], attr), Poll([s, t], attr)]
  }

  /** The world before the polls. */
  function TwoOpen(i: nat, j: nat, remote: seq<Byte>, port: nat, more: Traffic): World {
    World([Socket(i, remote, port, more), Socket(j, remote, port, NOTHING)], map[i := 0, j := 1], {})
  }

  lemma PlayOn(r: Run, e: Event, rest: seq<Event>)
    requires WorldOk(r.world) && Possible(r.world, e) && Runs(Evolve(r.world, e), rest)
    ensures Runs(r.world, [e] + rest) && PlayAll(r, [e] + rest) == PlayAll(Play(r, e), rest)
  {
    var es := [e] + rest;
    assert es[0] == e && es[1..] == rest;
  }

  lemma OpenTwo(i: nat, j: nat, remote: seq<Byte>, port: nat, more: Traffic, rest: seq<Event>)
    requires i != j && Runs(TwoOpen(i, j, remote, port, more), rest)
    ensures var es := [Open(i, remote, port)] + ([Open(j, remote, port)] + ([Carry(i, more)] + rest));
            && Runs(BEGIN.world, es)
            && PlayAll(BEGIN, es) == PlayAll(BEGIN.(world := TwoOpen(i, j, remote, port, more)), rest)
  {
    var e1, e2, e3 := Open(i, remote, port), Open(j, remote, port), Carry(i, more);
    var w1 := World([Socket(i, remote, port, NOTHING)], map[i := 0], {});
    var w2 := World([Socket(i, remote, port, NOTHING), Socket(j, remote, port, NOTHING)], map[i := 0, j := 1], {});
    assert Evolve(BEGIN.world, e1) == w1;
    assert Evolve(w1, e2) == w2;
    assert Evolve(w2, e3) == TwoOpen(i, j, remote, port, more);
    PlayOn(BEGIN.(world := w2), e3, rest);
    PlayOn(BEGIN.(world := w1), e2, [e3] + rest);
    PlayOn(BEGIN, e1, [e2] + ([e3] + rest));
  }

  lemma PollOn(r: Run, e: Event, rest: seq<Event>)
    requires e.Poll? && WorldOk(r.world) && r.world.lingering == {} && Truthful(r.world, e.dump) && Runs(r.world, rest)
    ensures Play(r, e).world == r.world && Play(r, e).accum == Update(r.accum, e.dump, e.attr)
    ensures Runs(r.world, [e] + rest) && PlayAll(r, [e] + rest) == PlayAll(Play(r, e), rest)
  {
    assert Evolve(r.world, e) == r.world;
    PlayOn(r, e, rest);
  }

  lemma PollThrice(r: Run, a: Event, b: Event, c: Event)
    requires a.Poll? && b.Poll? && c.Poll? && WorldOk(r.world) && r.world.lingering == {}
    requires Truthful(r.world, a.dump) && Truthful(r.world, b.dump) && Truthful(r.world, c.dump)
    ensures var es := [a] + ([b] + ([c] + []));
            && Runs(r.world, es) && PlayAll(r, es).world == r.world
            && PlayAll(r, es).accum == Update(Update(Update(r.accum, a.dump, a.attr), b.dump, b.attr), c.dump, c.attr)
  {
    var r1 := Play(r, a);
    PollOn(r, c, []);
    PollOn(r, b, [c] + []);
    PollOn(r, a, [b] + ([c] + []));
    PollOn(r1, b, [c] + []);
    PollOn(Play(r1, b), c, []);
  }

  lemma OneByOne<T>(a: T, b: T, c: T, d: T, e: T, f: T)
    ensures [a, b, c, d, e, f] == [a] + ([b] + ([c] + ([d] + ([e] + ([f] + [])))))
  {
  }

  /** Half a dump makes the totals exceed what was carried: all of it counts twice. */
  lemma HalfDumpOverCounts(i: nat, j: nat, remote: seq<Byte>, port: nat, more: Traffic, key: string, d: Direction)
    requires i != j && !IsLoopback(remote)
    ensures var es := HalfDump(i, j, remote, port, more, key);
            && Runs(BEGIN.world, es)
            && SumTotals(PlayAll(BEGIN, es).accum.totals, [key], d) == 2 * Pick(more, d)
            && SumCarried(PlayAll(BEGIN, es).world.socks, d) == Pick(more, d)
  {
    var w := TwoOpen(i, j, remote, port, more);
    var s, t := SockStat(remote, port, i, more), SockStat(remote, port, j, NOTHING);
    var attr := map[i := key, j := key];
    var both, one := Poll([s, t], attr), Poll([t], attr);
    var rest := [both] + ([one] + ([both] + []));
    PollThrice(BEGIN.(world := w), both, one, both);
    OpenTwo(i, j, remote, port, more, rest);
    OneByOne(Open(i, remote, port), Open(j, remote, port), Carry(i, more), both, one, both);
    ThreePolls(BEGIN.accum, s, t, attr, key);
    SumsAre(w, map[key := Plus(more, more)], more, key, d);
  }

  lemma SumsAre(w: World, totals: map<string, Traffic>, more: Traffic, key: string, d: Direction)
    requires |w.socks| == 2 && w.socks[0].traffic == more && w.socks[1].traffic == NOTHING && !IsLoopback(w.socks[0].remote)
    requires totals == map[key := Plus(more, more)]
    ensures SumTotals(totals, [key], d) == 2 * Pick(more, d) && SumCarried(w.socks, d) == Pick(more, d)
  {
    var keys, one := [key], w.socks[..1];
    assert keys[1..] == [] && one[..|one| - 1] == [] && w.socks[..|w.socks| - 1] == one;
    assert SumTotals(totals, keys, d) == Pick(Total(totals, key), d) + SumTotals(totals, keys[1..], d);
    assert SumCarried(one, d) == Pick(more, d);
  }

  /** So with 5 bytes carried the totals come to 10. */
  lemma FiveBytesCountTen()
    ensures var es := HalfDump(1, 2, [8, 8, 8, 8], 443, Traffic(5, 0), "piaware");
            && Runs(BEGIN.world, es)
            && SumTotals(PlayAll(BEGIN, es).accum.totals, ["piaware"], Sent) == 10
            && SumCarried(PlayAll(BEGIN, es).world.socks, Sent) == 5
  {
    HalfDumpOverCounts(1, 2, [8, 8, 8, 8], 443, Traffic(5, 0), "piaware", Sent);
  }

  // ---------------------------------------------------------------- an inode number retaken

  /** A socket under an inode whose last socket is still on record adds all it has
      carried if and only if its counter or the recorded one is 0. */
  lemma RetakenAddsAll(a: Accum, s: SockStat, key: string, d: Direction)
    requires !IsLoopback(s.remoteIp) && s.inode in a.last
    ensures Pick(Total(Update(a, [s], map[s.inode := key]).totals, key), d) - Pick(Total(a.totals, key), d) == Pick(s.traffic, d)
            <==> Pick(s.traffic, d) == 0 || Pick(a.last[s.inode], d) == 0
  {
    LoneGrowth(a, s, key, d);
  }

  /** A socket carries something, is polled and closes; before another poll a new
      one takes its inode number, carries as much and is polled. */
  function Retaken(i: nat, remote: seq<Byte>, port: nat, more: Traffic, key: string): seq<Event> {
    var open, carry := Open(i, remote, port), Carry(i, more);
    var poll := Poll([SockStat(remote, port, i, more)], map[i := key]);
    [open] + ([carry] + ([poll] + ([Close(i)] + ([open] + ([carry] + ([poll] + []))))))
  }

  lemma WholeOn(w: World, e: Event, rest: seq<Event>)
    requires WorldOk(w) && Possible(w, e) && Runs(Evolve(w, e), rest) && WholeDumps(Evolve(w, e), rest)
    requires e.Poll? && e.dump != [] ==> w.live.Keys <= Inodes(e.dump)
    ensures Runs(w, [e] + rest) && WholeDumps(w, [e] + rest)
  {
    var es := [e] + rest;
    assert es[0] == e && es[1..] == rest;
  }

  /** One socket under inode i, opened, grown and polled. */
  lemma OneLife(r: Run, i: nat, remote: seq<Byte>, port: nat, more: Traffic, key: string, rest: seq<Event>, w: World)
    requires WorldOk(r.world) && r.world.live == map[] && !IsLoopback(remote) && r.world.lingering <= {i}
    requires w == World(r.world.socks + [Socket(i, remote, port, more)], map[i := |r.world.socks|], r.world.lingering)
    requires Runs(w, rest) && WholeDumps(w, rest)
    ensures var s := SockStat(remote, port, i, more);
            var es := [Open(i, remote, port)] + ([Carry(i, more)] + ([Poll([s], map[i := key])] + rest));
            && Runs(r.world, es) && WholeDumps(r.world, es)
            && exists b: Books :: PlayAll(r, es) == PlayAll(Run(w, Update(r.accum, [s], map[i := key]), b), rest)
  {
    var s := SockStat(remote, port, i, more);
    var open, carry, poll := Open(i, remote, port), Carry(i, more), Poll([s], map[i := key]);
    var w1 := Evolve(r.world, open);
    assert w1.socks[|r.world.socks|] == Socket(i, remote, port, NOTHING);
    assert Evolve(w1, carry) == w;
    PolledAlone(w, s);
    assert Evolve(w, poll) == w;
    WholeOn(w, poll, rest);
    WholeOn(w1, carry, [poll] + rest);
    WholeOn(r.world, open, [carry] + ([poll] + rest));
    PlayOn(r, open, [carry] + ([poll] + rest));
    PlayOn(r.(world := w1), carry, [poll] + rest);
    PlayOn(r.(world := w), poll, rest);
    var after := Play(r.(world := w), poll);
    assert PlayAll(r, [open] + ([carry] + ([poll] + rest))) == PlayAll(Run(w, Update(r.accum, [s], map[i := key]), after.books), rest);
  }

  /** Polling the only open socket changes nothing in the world. */
  lemma PolledAlone(w: World, s: SockStat)
    requires WorldOk(w) && Lists(w, s) && w.live.Keys == {s.inode} && w.lingering <= {s.inode}
    ensures Truthful(w, [s]) && Inodes([s]) == {s.inode}
  {
    assert [s][0] == s;
  }

  /** Then half of what the two carried is missing from the totals, though every
      dump is whole. */
  lemma RetakenLoses(i: nat, remote: seq<Byte>, port: nat, more: Traffic, key: string, d: Direction)
    requires !IsLoopback(remote)
    ensures var es := Retaken(i, remote, port, more, key);
            && Runs(BEGIN.world, es) && WholeDumps(BEGIN.world, es)
            && SumTotals(PlayAll(BEGIN, es).accum.totals, [key], d) == Pick(more, d)
            && SumCarried(PlayAll(BEGIN, es).world.socks, d) == 2 * Pick(more, d)
  {
    var s, attr := SockStat(remote, port, i, more), map[i := key];
    var sock := Socket(i, remote, port, more);
    var w1 := World([sock], map[i := 0], {});
    var w2 := World([sock], map[], {i});
    var w3 := World([sock, sock], map[i := 1], {i});
    var life := [Open(i, remote, port)] + ([Carry(i, more)] + ([Poll([s], attr)] + []));
    var a1 := Update(BEGIN.accum, [s], attr);
    assert w2.socks + [sock] == w3.socks && BEGIN.world.socks + [sock] == w1.socks;
    assert Evolve(w1, Close(i)) == w2;
    OneLife(Run(w2, a1, BEGIN.books), i, remote, port, more, key, [], w3);
    WholeOn(w1, Close(i), life);
    OneLife(BEGIN, i, remote, port, more, key, [Close(i)] + life, w1);
    var es := Retaken(i, remote, port, more, key);
    assert es == [Open(i, remote, port)] + ([Carry(i, more)] + ([Poll([s], attr)] + ([Close(i)] + life)));
    var b: Books :| PlayAll(BEGIN, es) == PlayAll(Run(w1, a1, b), [Close(i)] + life);
    PlayOn(Run(w1, a1, b), Close(i), life);
    OneLife(Run(w2, a1, b), i, remote, port, more, key, [], w3);
    var b': Books :| PlayAll(Run(w2, a1, b), life) == PlayAll(Run(w3, Update(a1, [s], attr), b'), []);
    TwiceTheSame(BEGIN.accum, s, key);
    SumsOf(w3, more, key, Update(a1, [s], attr).totals, d);
  }

  lemma TwiceTheSame(a: Accum, s: SockStat, key: string)
    requires a == Accum(map[], map[]) && !IsLoopback(s.remoteIp)
    ensures Update(Update(a, [s], map[s.inode := key]), [s], map[s.inode := key]).totals == map[key := s.traffic]
  {
    var one, attr := [s], map[s.inode := key];
    assert one[1..] == [] && one[0] == s && s.inode in Inodes(one);
    var b := Update(a, one, attr);
    assert FoldAll(a, one, attr) == FoldSock(a, s, attr) == Accum(map[s.inode := s.traffic], map[key := s.traffic]);
    assert b == Accum(map[s.inode := s.traffic], map[key := s.traffic]);
    assert FoldAll(b, one, attr) == FoldSock(b, s, attr);
    assert FoldSock(b, s, attr).totals == map[key := s.traffic];
  }

  lemma SumsOf(w: World, more: Traffic, key: string, totals: map<string, Traffic>, d: Direction)
    requires |w.socks| == 2 && w.socks[0].traffic == w.socks[1].traffic == more && totals == map[key := more]
    requires !IsLoopback(w.socks[0].remote) && !IsLoopback(w.socks[1].remote)
    ensures SumTotals(totals, [key], d) == Pick(more, d) && SumCarried(w.socks, d) == 2 * Pick(more, d)
  {
    var keys, one := [key], w.socks[..1];
    assert keys[1..] == [] && one[..|one| - 1] == [] && w.socks[..|w.socks| - 1] == one;
    assert SumTotals(totals, keys, d) == Pick(Total(totals, key), d) + SumTotals(totals, keys[1..], d);
    assert SumCarried(one, d) == Pick(more, d);
  }

  /** With numbers: 5 counted for 10 carried. */
  lemma TenBytesCountFive()
    ensures var es := Retaken(1, [8, 8, 8, 8], 443, Traffic(5, 0), "piaware");
            && Runs(BEGIN.world, es) && WholeDumps(BEGIN.world, es)
            && SumTotals(PlayAll(BEGIN, es).accum.totals, ["piaware"], Sent) == 5
            && SumCarried(PlayAll(BEGIN, es).world.socks, Sent) == 10
  {
    RetakenLoses(1, [8, 8, 8, 8], 443, Traffic(5, 0), "piaware", Sent);
  }

  // ---------------------------------------------------------------- a dump cut short

  /** The fixed part of a socket's message: what is left when a dump is cut just
      before the attributes. */
  const HEAD: nat := 16 + INET_DIAG_MSG_LEN

  /** A dump of one socket, whole and cut before its counters: it is listed both
      times, the second time with no traffic. */
  lemma CutReadsNothing(num: Num, put: Put, m: Message, a: Attr, family: Family)
    requires SameOrder(num, put) && m.Valid(put) && m.body.Diag? && m.body.attrs == [a] && a.Info?
    ensures HEAD <= |m.Bytes(put)|
    ensures Dump(num, m.Bytes(put), family) == [m.Sock(family, 1)] && m.Sock(family, 1).traffic == a.traffic
    ensures Dump(num, m.Bytes(put)[..HEAD], family) == [m.Sock(family, 1).(traffic := NOTHING)]
  {
    var len := 16 + |m.BodyBytes(put)|;
    assert |put(len, 4)| == 4 && |put(m.mtype, 2)| == 2;
    MessageHeader(num, put, m, m.Bytes(put), len);
    BodyLength(num, put, m);
    OneAttr(put, a);
    assert AttrBytes(put, m.body.attrs) == a.Bytes(put);
    assert m.Bytes(put) + [] == m.Bytes(put);
    MessageStep(num, put, m, [], family);
    MessageCut(num, put, m, m.Bytes(put)[..HEAD], family);
    CountersShort(m.body.attrs, NOTHING);
    assert m.body.attrs[..1] == m.body.attrs;
  }

  lemma OneAttr(put: Put, a: Attr)
    requires a.Valid() && a.Info?
    ensures AttrBytes(put, [a]) == a.Bytes(put) && Arrived(put, [a], 0) == 0
  {
    var one := [a];
    assert one[1..] == [] && AttrBytes(put, one) == a.Bytes(put) + [];
    assert |a.Data(put)| >= BYTES_ACKED_OFF;
  }

  /** So a dump cut between two whole ones makes all of the socket's traffic count
      twice. */
  lemma CutDumpCountsTwice(num: Num, put: Put, m: Message, a: Attr, family: Family, key: string)
    requires SameOrder(num, put) && m.Valid(put) && m.body.Diag? && m.body.attrs == [a] && a.Info?
    requires !IsLoopback(m.Sock(family, 1).remoteIp)
    ensures HEAD <= |m.Bytes(put)|
    ensures var attr, start := map[m.body.inode := key], Accum(map[], map[]);
            var whole, cut := Dump(num, m.Bytes(put), family), Dump(num, m.Bytes(put)[..HEAD], family);
            Update(Update(Update(start, whole, attr), cut, attr), whole, attr).totals == map[key := Plus(a.traffic, a.traffic)]
  {
    CutReadsNothing(num, put, m, a, family);
    DownAndUp(m.Sock(family, 1), key);
  }

  lemma LonePoll(a: Accum, s: SockStat, key: string)
    requires !IsLoopback(s.remoteIp) && a.last.Keys <= {s.inode}
    ensures Update(a, [s], map[s.inode := key])
         == Accum(map[s.inode := s.traffic], a.totals[key := Plus(Total(a.totals, key), Delta(a.last, s))])
  {
    var one, attr := [s], map[s.inode := key];
    assert one[1..] == [] && one[0] == s && s.inode in Inodes(one);
    assert FoldAll(a, one, attr) == FoldSock(a, s, attr);
    assert FoldSock(a, s, attr).last == map[s.inode := s.traffic];
  }

  lemma DownAndUp(s: SockStat, key: string)
    requires !IsLoopback(s.remoteIp)
    ensures var start, attr, dip := Accum(map[], map[]), map[s.inode := key], s.(traffic := NOTHING);
            Update(Update(Update(start, [s], attr), [dip], attr), [s], attr).totals == map[key := Plus(s.traffic, s.traffic)]
  {
    var start, attr, dip := Accum(map[], map[]), map[s.inode := key], s.(traffic := NOTHING);
    LonePoll(start, s, key);
    var b := Update(start, [s], attr);
    LonePoll(b, dip, key);
    LonePoll(Update(b, [dip], attr), s, key);
  }

  function Zeros(n: nat): (s: seq<Byte>)
    ensures |s| == n
  {
    seq(n, _ => 0)
  }

  /** What the kernel says of a socket to 8.8.8.8 port 443 that has sent 5 bytes. */
  const COUNTED: Attr := Info(Zeros(BYTES_ACKED_OFF), Traffic(5, 0), [])
  const ANSWER: Message :=
    Message(SOCK_DIAG_BY_FAMILY, Zeros(10),
            Diag(Zeros(6), [1, 187], Zeros(16), [8, 8, 8, 8] + Zeros(12), Zeros(28), 7, [COUNTED]))

  /** A valid answer for a socket to 8.8.8.8 with inode 7 that has sent 5 bytes. */
  ghost predicate SaysFive(put: Put, m: Message, a: Attr) {
    && m.Valid(put) && m.body.Diag? && m.body.attrs == [a] && m.body.inode == 7 && m.body.dst[..4] == [8, 8, 8, 8]
    && a.Info? && a.traffic == Traffic(5, 0)
  }

  lemma AnswerSaysFive(put: Put, m: Message, a: Attr)
    requires put == PutLittle && m == ANSWER && a == COUNTED
    ensures SaysFive(put, m, a)
  {
    OneAttr(put, a);
    assert |a.Data(put)| == TCPI_MIN_LEN;
    assert |a.Bytes(put)| <= 4 + TCPI_MIN_LEN + 3;
    assert |m.BodyBytes(put)| == INET_DIAG_MSG_LEN + |a.Bytes(put)|;
    assert m.body.dst[..4] == [8, 8, 8, 8];
  }

  /** Cut after its 88th byte, such an answer makes 5 bytes count 10. */
  lemma FiveBytesCutCountTen(num: Num, put: Put, m: Message, a: Attr)
    requires SameOrder(num, put) && SaysFive(put, m, a)
    ensures |m.Bytes(put)| >= 88
    ensures var attr, start := map[7 := "piaware"], Accum(map[], map[]);
            var whole, cut := Dump(num, m.Bytes(put), Inet), Dump(num, m.Bytes(put)[..88], Inet);
            Update(Update(Update(start, whole, attr), cut, attr), whole, attr).totals == map["piaware" := Traffic(10, 0)]
  {
    CutDumpCountsTwice(num, put, m, a, Inet, "piaware");
  }

  /** And this is one, in little-endian order. */
  lemma AnswerFits()
    ensures SameOrder(Little, PutLittle) && SaysFive(PutLittle, ANSWER, COUNTED)
  {
    OrdersExist();
    AnswerSaysFive(PutLittle, ANSWER, COUNTED);
  }
}
