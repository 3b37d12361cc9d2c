/** The accumulator against a world of sockets that open, carry traffic, close
    and reuse inode numbers, polled through dumps that may miss sockets. */
module ThroughputRuns {
  import opened Bytes
  import opened Address
  import opened Netdiag
  import opened Throughput

  // ---------------------------------------------------------------- the world

  datatype Socket = Socket(inode: nat, remote: seq<Byte>, port: nat, traffic: Traffic)

  /** Every socket that ever existed, by number; which are open, by inode; and
      the inode numbers whose last socket closed and which no later non-empty
      dump has been seen to lack. */
  datatype World = World(socks: seq<Socket>, live: map<nat, nat>, lingering: set<nat>)

  datatype Event =
    | Open(inode: nat, remote: seq<Byte>, port: nat)
    | Carry(inode: nat, more: Traffic)
    | Close(inode: nat)
    | Poll(dump: seq<SockStat>, attr: Attribution)

  predicate WorldOk(w: World) {
    forall i :: i in w.live ==> w.live[i] < |w.socks| && w.socks[w.live[i]].inode == i
  }

  predicate Lists(w: World, s: SockStat)
    requires WorldOk(w)
  {
    s.inode in w.live &&
    var k := w.socks[w.live[s.inode]];
    s == SockStat(k.remote, k.port, k.inode, k.traffic)
  }

  /** The dump lists open sockets only, each at most once, as they are. */
  predicate Truthful(w: World, dump: seq<SockStat>)
    requires WorldOk(w)
  {
    && (forall s <- dump :: Lists(w, s))
    && forall j, k :: 0 <= j < k < |dump| ==> dump[j].inode != dump[k].inode
  }

  predicate Possible(w: World, e: Event)
    requires WorldOk(w)
  {
    match e
    case Open(inode, _, _) => inode !in w.live
    case Carry(inode, _) => inode in w.live
    case Close(inode) => inode in w.live
    case Poll(dump, _) => Truthful(w, dump)
  }

  function Evolve(w: World, e: Event): (w': World)
    requires WorldOk(w) && Possible(w, e)
    ensures WorldOk(w')
  {
    match e
    case Open(inode, remote, port) =>
      World(w.socks + [Socket(inode, remote, port, NOTHING)], w.live[inode := |w.socks|], w.lingering)
    case Carry(inode, more) =>
      var id := w.live[inode];
      w.(socks := w.socks[id := w.socks[id].(traffic := Plus(w.socks[id].traffic, more))])
    case Close(inode) =>
      w.(live := w.live - {inode}, lingering := w.lingering + {inode})
    case Poll(dump, _) =>
      if dump == [] then w else w.(lingering := w.lingering * Inodes(dump))
  }

  // ---------------------------------------------------------------- the books

  /** seen: the counters each socket showed when last folded in. owner: the
      socket whose counters stand recorded under each inode. recounted: traffic
      added again because the record of an open socket had been forgotten.
      inherited: traffic not added because a closed socket's counters still
      stood under the inode number. */
  datatype Books = Books(seen: map<nat, Traffic>, owner: map<nat, nat>, recounted: Traffic, inherited: Traffic)

  function Seen(b: Books, id: nat): Traffic {
    if id in b.seen then b.seen[id] else NOTHING
  }

  function Min(a: nat, b: nat): nat {
    if a < b then a else b
  }

  function Less(a: Traffic, b: Traffic): Traffic {
    Traffic(Min(a.sent, b.sent), Min(a.received, b.received))
  }

  function Book(w: World, last: map<nat, Traffic>, b: Books, s: SockStat, attr: Attribution): Books
    requires WorldOk(w) && Lists(w, s)
  {
    if !Counted(s, attr) then b
    else
      var id := w.live[s.inode];
      var known := s.inode in b.owner && b.owner[s.inode] == id;
      var recorded := if s.inode in last then last[s.inode] else NOTHING;
      Books(
        b.seen[id := s.traffic],
        b.owner[s.inode := id],
        if known then b.recounted else Plus(b.recounted, Seen(b, id)),
        if known then b.inherited else Plus(b.inherited, Less(s.traffic, recorded)))
  }

  function BookAll(w: World, a: Accum, b: Books, dump: seq<SockStat>, attr: Attribution): Books
    requires WorldOk(w) && Truthful(w, dump)
    decreases |dump|
  {
    if dump == [] then b
    else BookAll(w, FoldSock(a, dump[0], attr), Book(w, a.last, b, dump[0], attr), dump[1..], attr)
  }

  datatype Run = Run(world: World, accum: Accum, books: Books)

  const BEGIN: Run := Run(World([], map[], {}), Accum(map[], map[]), Books(map[], map[], NOTHING, NOTHING))

  function Play(r: Run, e: Event): (r': Run)
    requires WorldOk(r.world) && Possible(r.world, e)
    ensures WorldOk(r'.world)
  {
    var world := Evolve(r.world, e);
    if e.Poll? then
      var b := BookAll(r.world, r.accum, r.books, e.dump, e.attr);
      Run(world, Update(r.accum, e.dump, e.attr), b.(owner := Prune(b.owner, e.dump)))
    else r.(world := world)
  }

  predicate Runs(w: World, es: seq<Event>)
    requires WorldOk(w)
    decreases |es|
  {
    es == [] || (Possible(w, es[0]) && Runs(Evolve(w, es[0]), es[1..]))
  }

  function PlayAll(r: Run, es: seq<Event>): (r': Run)
    requires WorldOk(r.world) && Runs(r.world, es)
    ensures WorldOk(r'.world)
    decreases |es|
  {
    if es == [] then r else PlayAll(Play(r, es[0]), es[1..])
  }

  // ---------------------------------------------------------------- sums

  ghost predicate Distinct(keys: seq<string>) {
    forall j, k :: 0 <= j < k < |keys| ==> keys[j] != keys[k]
  }

  /** All feeders' totals together. */
  function SumTotals(totals: map<string, Traffic>, keys: seq<string>, d: Direction): nat {
    if keys == [] then 0 else Pick(Total(totals, keys[0]), d) + SumTotals(totals, keys[1..], d)
  }

  /** What the sockets 0..n-1 had carried when each was last folded in. */
  function SumSeen(b: Books, n: nat, d: Direction): nat {
    if n == 0 then 0 else SumSeen(b, n - 1, d) + Pick(Seen(b, n - 1), d)
  }

  /** What a socket has carried to or from another machine. */
  function Carried(k: Socket, d: Direction): nat {
    if IsLoopback(k.remote) then 0 else Pick(k.traffic, d)
  }

  /** What the sockets have actually carried, those within the machine left out. */
  function SumCarried(socks: seq<Socket>, d: Direction): nat {
    if socks == [] then 0 else SumCarried(socks[..|socks| - 1], d) + Carried(socks[|socks| - 1], d)
  }

  lemma {:induction false} SumUnchanged(totals: map<string, Traffic>, keys: seq<string>, key: string, t: Traffic, d: Direction)
    requires key !in keys
    ensures SumTotals(totals[key := t], keys, d) == SumTotals(totals, keys, d)
  {
    if keys != [] {
      SumUnchanged(totals, keys[1..], key, t, d);
    }
  }

  lemma {:induction false} SumBumped(totals: map<string, Traffic>, keys: seq<string>, key: string, t: Traffic, d: Direction)
    requires Distinct(keys) && key in keys
    ensures SumTotals(totals[key := t], keys, d) + Pick(Total(totals, key), d)
         == SumTotals(totals, keys, d) + Pick(t, d)
  {
    if keys[0] == key {
      SumUnchanged(totals, keys[1..], key, t, d);
    } else {
      SumBumped(totals, keys[1..], key, t, d);
    }
  }

  lemma {:induction false} SeenUpdated(b: Books, b': Books, n: nat, id: nat, t: Traffic, d: Direction)
    requires b'.seen == b.seen[id := t]
    ensures SumSeen(b', n, d) + (if id < n then Pick(Seen(b, id), d) else 0)
         == SumSeen(b, n, d) + (if id < n then Pick(t, d) else 0)
  {
    if n > 0 {
      SeenUpdated(b, b', n - 1, id, t, d);
    }
  }

  lemma {:induction false} SeenSame(b: Books, b': Books, n: nat, d: Direction)
    requires b'.seen == b.seen
    ensures SumSeen(b', n, d) == SumSeen(b, n, d)
  {
    if n > 0 {
      SeenSame(b, b', n - 1, d);
    }
  }

  // ---------------------------------------------------------------- exact accounting

  /** Records, books and world fit together. */
  ghost predicate Consistent(r: Run) {
    var (w, last, b) := (r.world, r.accum.last, r.books);
    && WorldOk(w)
    && b.owner.Keys == last.Keys
    && (forall i :: i in b.owner ==>
         b.owner[i] < |w.socks| && w.socks[b.owner[i]].inode == i && last[i] == Seen(b, b.owner[i]))
    && (forall id :: id in b.seen ==>
         && id < |w.socks| && !IsLoopback(w.socks[id].remote)
         && b.seen[id].sent <= w.socks[id].traffic.sent
         && b.seen[id].received <= w.socks[id].traffic.received)
  }

  /** No socket with a peer on this machine was ever folded in. */
  ghost predicate FarOnly(r: Run) {
    forall id :: id in r.books.seen ==> id < |r.world.socks| && !IsLoopback(r.world.socks[id].remote)
  }

  ghost predicate Balanced(r: Run, keys: seq<string>, d: Direction) {
    SumTotals(r.accum.totals, keys, d) + Pick(r.books.inherited, d)
    == SumSeen(r.books, |r.world.socks|, d) + Pick(r.books.recounted, d)
  }

  lemma BookKeepsConsistent(w: World, a: Accum, b: Books, s: SockStat, attr: Attribution)
    requires WorldOk(w) && Lists(w, s) && Consistent(Run(w, a, b)) && Counted(s, attr)
    ensures Consistent(Run(w, a.(last := a.last[s.inode := s.traffic]), Book(w, a.last, b, s, attr)))
  {
    var id := w.live[s.inode];
    var b' := Book(w, a.last, b, s, attr);
    assert w.socks[id].traffic == s.traffic && Seen(b', id) == s.traffic;
    forall i | i in b'.owner && i != s.inode ensures a.last[i] == Seen(b', b'.owner[i]) {
      assert i in b.owner && w.socks[b.owner[i]].inode == i;
      assert b.owner[i] != id;
    }
  }

  lemma FoldKeepsConsistent(w: World, a: Accum, b: Books, s: SockStat, attr: Attribution)
    requires WorldOk(w) && Lists(w, s) && Consistent(Run(w, a, b))
    ensures Consistent(Run(w, FoldSock(a, s, attr), Book(w, a.last, b, s, attr)))
  {
    if Counted(s, attr) {
      BookKeepsConsistent(w, a, b, s, attr);
    }
  }

  lemma {:induction false} PollKeepsConsistent(w: World, a: Accum, b: Books, dump: seq<SockStat>, attr: Attribution)
    requires WorldOk(w) && Truthful(w, dump) && Consistent(Run(w, a, b))
    ensures Consistent(Run(w, FoldAll(a, dump, attr), BookAll(w, a, b, dump, attr)))
    decreases |dump|
  {
    if dump != [] {
      FoldKeepsConsistent(w, a, b, dump[0], attr);
      PollKeepsConsistent(w, FoldSock(a, dump[0], attr), Book(w, a.last, b, dump[0], attr), dump[1..], attr);
    }
  }

  lemma PruneKeepsConsistent(r: Run, dump: seq<SockStat>)
    requires Consistent(r)
    ensures Consistent(r.(accum := Accum(Prune(r.accum.last, dump), r.accum.totals),
                          books := r.books.(owner := Prune(r.books.owner, dump))))
  {
  }

  lemma EvolveKeepsConsistent(r: Run, e: Event)
    requires Consistent(r) && Possible(r.world, e)
    ensures Consistent(r.(world := Evolve(r.world, e)))
  {
    var w := Evolve(r.world, e);
    if e.Carry? {
      assert |w.socks| == |r.world.socks|;
    }
  }

  lemma PlayKeepsConsistent(r: Run, e: Event)
    requires Consistent(r) && Possible(r.world, e)
    ensures Consistent(Play(r, e))
  {
    if e.Poll? {
      PollKeepsConsistent(r.world, r.accum, r.books, e.dump, e.attr);
      var polled := Run(r.world, FoldAll(r.accum, e.dump, e.attr), BookAll(r.world, r.accum, r.books, e.dump, e.attr));
      PruneKeepsConsistent(polled, e.dump);
      EvolveKeepsConsistent(Play(r, e).(world := r.world), e);
    } else {
      EvolveKeepsConsistent(r, e);
    }
  }

  /** What a fold adds to the totals and what it changes in the books. */
  lemma DeltaAccounted(w: World, a: Accum, b: Books, s: SockStat, attr: Attribution, d: Direction)
    requires WorldOk(w) && Lists(w, s) && Consistent(Run(w, a, b)) && Counted(s, attr)
    ensures var b' := Book(w, a.last, b, s, attr);
            Pick(Delta(a.last, s), d) + Pick(Seen(b, w.live[s.inode]), d) + Pick(b'.inherited, d) + Pick(b.recounted, d)
            == Pick(s.traffic, d) + Pick(b.inherited, d) + Pick(b'.recounted, d)
  {
  }

  lemma FoldKeepsBalance(w: World, a: Accum, b: Books, s: SockStat, attr: Attribution, keys: seq<string>, d: Direction)
    requires WorldOk(w) && Lists(w, s) && Distinct(keys) && attr.Values <= set k <- keys
    requires Consistent(Run(w, a, b)) && Balanced(Run(w, a, b), keys, d)
    ensures Balanced(Run(w, FoldSock(a, s, attr), Book(w, a.last, b, s, attr)), keys, d)
  {
    if Counted(s, attr) {
      var key := attr[s.inode];
      assert key in attr.Values;
      DeltaAccounted(w, a, b, s, attr, d);
      SumBumped(a.totals, keys, key, Plus(Total(a.totals, key), Delta(a.last, s)), d);
      SeenUpdated(b, Book(w, a.last, b, s, attr), |w.socks|, w.live[s.inode], s.traffic, d);
    }
  }

  lemma {:induction false} PollKeepsBalance(w: World, a: Accum, b: Books, dump: seq<SockStat>, attr: Attribution,
                                            keys: seq<string>, d: Direction)
    requires WorldOk(w) && Truthful(w, dump) && Distinct(keys) && attr.Values <= set k <- keys
    requires Consistent(Run(w, a, b)) && Balanced(Run(w, a, b), keys, d)
    ensures Balanced(Run(w, FoldAll(a, dump, attr), BookAll(w, a, b, dump, attr)), keys, d)
    decreases |dump|
  {
    if dump != [] {
      FoldKeepsConsistent(w, a, b, dump[0], attr);
      FoldKeepsBalance(w, a, b, dump[0], attr, keys, d);
      PollKeepsBalance(w, FoldSock(a, dump[0], attr), Book(w, a.last, b, dump[0], attr), dump[1..], attr, keys, d);
    }
  }

  /** Every poll attributes sockets to the given feeders only. */
  predicate Attributes(es: seq<Event>, keys: seq<string>) {
    forall e <- es :: e.Poll? ==> e.attr.Values <= set k <- keys
  }

  lemma PlayKeepsBalance(r: Run, e: Event, keys: seq<string>, d: Direction)
    requires Consistent(r) && Balanced(r, keys, d) && Distinct(keys) && Possible(r.world, e)
    requires e.Poll? ==> e.attr.Values <= set k <- keys
    ensures Balanced(Play(r, e), keys, d)
  {
    if e.Poll? {
      PollBalances(r, e.dump, e.attr, keys, d);
    } else {
      EvolveBalances(r, e, keys, d);
    }
  }

  lemma PollBalances(r: Run, dump: seq<SockStat>, attr: Attribution, keys: seq<string>, d: Direction)
    requires Consistent(r) && Balanced(r, keys, d) && Distinct(keys) && Truthful(r.world, dump)
    requires attr.Values <= set k <- keys
    ensures Balanced(Play(r, Poll(dump, attr)), keys, d)
  {
    var b := BookAll(r.world, r.accum, r.books, dump, attr);
    PollKeepsBalance(r.world, r.accum, r.books, dump, attr, keys, d);
    SeenSame(b, b.(owner := Prune(b.owner, dump)), |r.world.socks|, d);
  }

  lemma EvolveBalances(r: Run, e: Event, keys: seq<string>, d: Direction)
    requires Consistent(r) && Balanced(r, keys, d) && Possible(r.world, e) && !e.Poll?
    ensures Balanced(Play(r, e), keys, d)
  {
    var n := |r.world.socks|;
    if e.Open? {
      assert n !in r.books.seen;
      assert SumSeen(r.books, n + 1, d) == SumSeen(r.books, n, d);
    }
  }

  lemma {:induction false} PlayAllKeeps(r: Run, es: seq<Event>, keys: seq<string>, d: Direction)
    requires Consistent(r) && Balanced(r, keys, d) && Distinct(keys) && Runs(r.world, es) && Attributes(es, keys)
    ensures Consistent(PlayAll(r, es)) && Balanced(PlayAll(r, es), keys, d)
    decreases |es|
  {
    if es != [] {
      PlayKeepsConsistent(r, es[0]);
      PlayKeepsBalance(r, es[0], keys, d);
      PlayAllKeeps(Play(r, es[0]), es[1..], keys, d);
    }
  }

  lemma {:induction false} NothingYet(keys: seq<string>, d: Direction)
    ensures Balanced(BEGIN, keys, d)
  {
    if keys != [] {
      NothingYet(keys[1..], d);
    }
  }

  /** For every run, with any attribution at each poll and dumps that may miss
      any sockets: the totals are what the sockets had carried when last folded
      in, plus what was recounted, minus what was inherited. */
  lemma ExactAccounting(es: seq<Event>, keys: seq<string>, d: Direction)
    requires Distinct(keys) && Runs(BEGIN.world, es) && Attributes(es, keys)
    ensures var r := PlayAll(BEGIN, es);
            && FarOnly(r)
            && SumTotals(r.accum.totals, keys, d) + Pick(r.books.inherited, d)
               == SumSeen(r.books, |r.world.socks|, d) + Pick(r.books.recounted, d)
  {
    NothingYet(keys, d);
    PlayAllKeeps(BEGIN, es, keys, d);
  }

  lemma {:induction false} SeenWithinCarried(r: Run, n: nat, d: Direction)
    requires Consistent(r) && n <= |r.world.socks|
    ensures SumSeen(r.books, n, d) <= SumCarried(r.world.socks[..n], d)
  {
    if n > 0 {
      SeenWithinCarried(r, n - 1, d);
      assert r.world.socks[..n][..n - 1] == r.world.socks[..n - 1];
    }
  }

  // ---------------------------------------------------------------- never too much

  /** Every dump is empty or lists every open socket. */
  predicate WholeDumps(w: World, es: seq<Event>)
    requires WorldOk(w) && Runs(w, es)
    decreases |es|
  {
    es != [] ==>
      && (es[0].Poll? && es[0].dump != [] ==> w.live.Keys <= Inodes(es[0].dump))
      && WholeDumps(Evolve(w, es[0]), es[1..])
  }

  /** Socket id, open under inode i, is still on record if it was ever folded in. */
  ghost predicate OnRecord(b: Books, i: nat, id: nat) {
    Seen(b, id) == NOTHING || (i in b.owner && b.owner[i] == id)
  }

  /** Every open socket that was folded in is still on record. */
  ghost predicate Remembered(w: World, b: Books) {
    && b.recounted == NOTHING
    && forall i :: i in w.live ==> OnRecord(b, i, w.live[i])
  }

  lemma BookOnRecord(w: World, last: map<nat, Traffic>, b: Books, s: SockStat, attr: Attribution, i: nat)
    requires WorldOk(w) && Lists(w, s) && i in w.live && OnRecord(b, i, w.live[i])
    ensures OnRecord(Book(w, last, b, s, attr), i, w.live[i])
  {
    assert w.socks[w.live[i]].inode == i;
  }

  lemma FoldRemembers(w: World, last: map<nat, Traffic>, b: Books, s: SockStat, attr: Attribution)
    requires WorldOk(w) && Lists(w, s) && Remembered(w, b)
    ensures Remembered(w, Book(w, last, b, s, attr))
  {
    assert OnRecord(b, s.inode, w.live[s.inode]);
    forall i | i in w.live ensures OnRecord(Book(w, last, b, s, attr), i, w.live[i]) {
      BookOnRecord(w, last, b, s, attr, i);
    }
  }

  lemma {:induction false} PollRemembers(w: World, a: Accum, b: Books, dump: seq<SockStat>, attr: Attribution)
    requires WorldOk(w) && Truthful(w, dump) && Remembered(w, b)
    ensures Remembered(w, BookAll(w, a, b, dump, attr))
    decreases |dump|
  {
    if dump != [] {
      FoldRemembers(w, a.last, b, dump[0], attr);
      PollRemembers(w, FoldSock(a, dump[0], attr), Book(w, a.last, b, dump[0], attr), dump[1..], attr);
    }
  }

  lemma PlayRemembers(r: Run, e: Event)
    requires Consistent(r) && Remembered(r.world, r.books) && Possible(r.world, e)
    requires e.Poll? && e.dump != [] ==> r.world.live.Keys <= Inodes(e.dump)
    ensures Remembered(Play(r, e).world, Play(r, e).books)
  {
    var r' := Play(r, e);
    if e.Poll? {
      PollRemembers(r.world, r.accum, r.books, e.dump, e.attr);
      var b := BookAll(r.world, r.accum, r.books, e.dump, e.attr);
      forall i | i in r'.world.live ensures OnRecord(r'.books, i, r'.world.live[i]) {
        assert OnRecord(b, i, r.world.live[i]);
      }
    } else {
      forall i | i in r'.world.live ensures OnRecord(r'.books, i, r'.world.live[i]) {
        assert i in r.world.live ==> OnRecord(r.books, i, r.world.live[i]);
      }
    }
  }

  lemma {:induction false} PlayAllRemembers(r: Run, es: seq<Event>)
    requires Consistent(r) && Remembered(r.world, r.books) && Runs(r.world, es) && WholeDumps(r.world, es)
    ensures PlayAll(r, es).books.recounted == NOTHING
    decreases |es|
  {
    if es != [] {
      PlayRemembers(r, es[0]);
      PlayKeepsConsistent(r, es[0]);
      PlayAllRemembers(Play(r, es[0]), es[1..]);
    }
  }

  /** Sockets may open, grow, close and reuse inode numbers at any time: with
      empty or whole dumps the totals never exceed what was carried. */
  lemma NeverOverCounts(es: seq<Event>, keys: seq<string>, d: Direction)
    requires Distinct(keys) && Runs(BEGIN.world, es) && Attributes(es, keys) && WholeDumps(BEGIN.world, es)
    ensures var r := PlayAll(BEGIN, es);
            SumTotals(r.accum.totals, keys, d) <= SumCarried(r.world.socks, d)
  {
    ExactAccounting(es, keys, d);
    PlayAllRemembers(BEGIN, es);
    NothingYet(keys, d);
    PlayAllKeeps(BEGIN, es, keys, d);
    var r := PlayAll(BEGIN, es);
    SeenWithinCarried(r, |r.world.socks|, d);
    assert r.world.socks[..|r.world.socks|] == r.world.socks;
  }

  // ---------------------------------------------------------------- peers on this machine

  ghost predicate OpensNear(es: seq<Event>) {
    forall e <- es :: e.Open? ==> IsLoopback(e.remote)
  }

  lemma {:induction false} NearKeepsTotals(r: Run, es: seq<Event>)
    requires WorldOk(r.world) && Runs(r.world, es) && OpensNear(es)
    requires forall k <- r.world.socks :: IsLoopback(k.remote)
    ensures PlayAll(r, es).accum.totals == r.accum.totals
    decreases |es|
  {
    if es != [] {
      var e := es[0];
      var r' := Play(r, e);
      if e.Poll? {
        forall s | s in e.dump ensures IsLoopback(s.remoteIp) {
          assert r.world.socks[r.world.live[s.inode]] in r.world.socks;
        }
        NearAddsNothing(r.accum, e.dump, e.attr);
      }
      assert forall x <- es[1..] :: x in es;
      NearKeepsTotals(r', es[1..]);
    }
  }

  /** In a run in which every socket opened has its peer on this machine, no feeder
      ever has a total. */
  lemma NearRunHasNoTotals(es: seq<Event>)
    requires Runs(BEGIN.world, es) && OpensNear(es)
    ensures PlayAll(BEGIN, es).accum.totals == map[]
  {
    NearKeepsTotals(BEGIN, es);
  }

  // ---------------------------------------------------------------- exactly when traffic is recounted

  /** The sockets a poll folds in, and those of them that have carried anything. */
  function Folded(w: World, dump: seq<SockStat>, attr: Attribution): set<nat>
    requires WorldOk(w) && Truthful(w, dump)
  {
    set s <- dump | Counted(s, attr) :: w.live[s.inode]
  }

  function Busy(w: World, dump: seq<SockStat>, attr: Attribution): set<nat>
    requires WorldOk(w) && Truthful(w, dump)
  {
    set s <- dump | Counted(s, attr) && s.traffic != NOTHING :: w.live[s.inode]
  }

  /** The open sockets that a non-empty dump does not list. */
  function Missing(w: World, dump: seq<SockStat>): set<nat> {
    if dump == [] then {} else set i | i in w.live && i !in Inodes(dump) :: w.live[i]
  }

  /** Some socket is folded in with traffic, then missed by a non-empty dump while
      it is open, then folded in again. `busy` are the sockets folded in with
      traffic so far, `missed` those of them that a dump has missed since. */
  ghost predicate FoldsAgain(w: World, busy: set<nat>, missed: set<nat>, es: seq<Event>)
    requires WorldOk(w) && Runs(w, es)
    decreases |es|
  {
    es != [] &&
    var w', rest := Evolve(w, es[0]), es[1..];
    match es[0]
    case Poll(dump, attr) =>
      || Folded(w, dump, attr) * missed != {}
      || FoldsAgain(w', busy + Busy(w, dump, attr), missed + busy * Missing(w, dump), rest)
    case _ => FoldsAgain(w', busy, missed, rest)
  }

  /** The books agree with what has been watched, and nothing is recounted yet. */
  ghost predicate Watched(live: map<nat, nat>, b: Books, busy: set<nat>, missed: set<nat>) {
    && b.recounted == NOTHING && missed <= busy
    && (forall id :: id in busy <==> Seen(b, id) != NOTHING)
    && forall i :: i in live && live[i] in busy ==> (Owns(b, i, live[i]) <==> live[i] !in missed)
  }

  ghost predicate Owns(b: Books, i: nat, id: nat) {
    i in b.owner && b.owner[i] == id
  }

  lemma FoldMissed(w: World, a: Accum, b: Books, s: SockStat, attr: Attribution, busy: set<nat>, missed: set<nat>)
    requires WorldOk(w) && Lists(w, s) && Watched(w.live, b, busy, missed) && Counted(s, attr) && w.live[s.inode] in missed
    ensures Book(w, a.last, b, s, attr).recounted != NOTHING
  {
    assert !Owns(b, s.inode, w.live[s.inode]) && Seen(b, w.live[s.inode]) != NOTHING;
  }

  /** What a fold does to the books, as far as it is watched. */
  lemma FoldBooks(w: World, a: Accum, b: Books, s: SockStat, attr: Attribution, id: nat)
    requires WorldOk(w) && Lists(w, s) && Counted(s, attr) && id == w.live[s.inode]
    requires b.recounted == NOTHING && (Owns(b, s.inode, id) || Seen(b, id) == NOTHING)
    ensures var b' := Book(w, a.last, b, s, attr);
            && b'.recounted == NOTHING && Seen(b', id) == s.traffic
            && (forall other :: other != id ==> Seen(b', other) == Seen(b, other))
            && b'.owner == b.owner[s.inode := id]
  {
  }

  /** Putting a socket on record keeps the watch. */
  lemma RecordWatched(live: map<nat, nat>, b: Books, b': Books, i: nat, id: nat, t: Traffic,
                      busy: set<nat>, busy': set<nat>, missed: set<nat>)
    requires Watched(live, b, busy, missed) && id !in missed
    requires i in live && live[i] == id && forall j :: j in live && j != i ==> live[j] != id
    requires b'.recounted == NOTHING && b'.owner == b.owner[i := id] && Seen(b', id) == t
    requires forall other :: other != id ==> Seen(b', other) == Seen(b, other)
    requires (id in busy ==> t != NOTHING) && busy' == if t != NOTHING then busy + {id} else busy
    ensures Watched(live, b', busy', missed)
  {
    forall j | j in live && live[j] in busy' ensures Owns(b', j, live[j]) <==> live[j] !in missed {
      if j != i {
        assert live[j] in busy && (Owns(b, j, live[j]) <==> live[j] !in missed);
      }
    }
  }

  lemma OneInode(w: World, i: nat)
    requires WorldOk(w) && i in w.live
    ensures forall j :: j in w.live && j != i ==> w.live[j] != w.live[i]
  {
    forall j | j in w.live && j != i ensures w.live[j] != w.live[i] {
      assert w.socks[w.live[j]].inode == j;
    }
  }

  lemma StaysBusy(w: World, a: Accum, b: Books, s: SockStat)
    requires WorldOk(w) && Lists(w, s) && Consistent(Run(w, a, b)) && Seen(b, w.live[s.inode]) != NOTHING
    ensures s.traffic != NOTHING
  {
    assert w.live[s.inode] in b.seen;
  }

  lemma FoldWatched(w: World, a: Accum, b: Books, s: SockStat, attr: Attribution,
                    busy: set<nat>, busy': set<nat>, missed: set<nat>, id: nat)
    requires WorldOk(w) && Lists(w, s) && Consistent(Run(w, a, b)) && Watched(w.live, b, busy, missed)
    requires Counted(s, attr) && id == w.live[s.inode] && id !in missed
    requires busy' == if s.traffic != NOTHING then busy + {id} else busy
    ensures Watched(w.live, Book(w, a.last, b, s, attr), busy', missed)
  {
    if Seen(b, id) != NOTHING {
      StaysBusy(w, a, b, s);
      assert Owns(b, s.inode, id);
    }
    FoldBooks(w, a, b, s, attr, id);
    OneInode(w, s.inode);
    RecordWatched(w.live, b, Book(w, a.last, b, s, attr), s.inode, id, s.traffic, busy, busy', missed);
  }

  lemma {:induction false} RecountedStays(w: World, a: Accum, b: Books, dump: seq<SockStat>, attr: Attribution)
    requires WorldOk(w) && Truthful(w, dump)
    ensures b.recounted != NOTHING ==> BookAll(w, a, b, dump, attr).recounted != NOTHING
    decreases |dump|
  {
    if dump != [] {
      RecountedStays(w, FoldSock(a, dump[0], attr), Book(w, a.last, b, dump[0], attr), dump[1..], attr);
    }
  }

  /** The socket folded in first, if it is, and if it has carried anything. */
  function First(w: World, s: SockStat, attr: Attribution): set<nat>
    requires WorldOk(w) && Lists(w, s)
  {
    if Counted(s, attr) then {w.live[s.inode]} else {}
  }

  function FirstBusy(w: World, s: SockStat, attr: Attribution): set<nat>
    requires WorldOk(w) && Lists(w, s)
  {
    if s.traffic != NOTHING then First(w, s, attr) else {}
  }

  lemma FoldedCons(w: World, dump: seq<SockStat>, attr: Attribution)
    requires WorldOk(w) && Truthful(w, dump) && dump != [] && Lists(w, dump[0])
    ensures Folded(w, dump, attr) == First(w, dump[0], attr) + Folded(w, dump[1..], attr)
    ensures Busy(w, dump, attr) == FirstBusy(w, dump[0], attr) + Busy(w, dump[1..], attr)
  {
    assert forall x :: x in dump <==> x == dump[0] || x in dump[1..];
  }

  lemma FirstMissed(w: World, s: SockStat, attr: Attribution, busy: set<nat>, missed: set<nat>)
    requires WorldOk(w) && Lists(w, s)
    ensures First(w, s, attr) * missed != {} <==> Counted(s, attr) && w.live[s.inode] in missed
    ensures busy + FirstBusy(w, s, attr)
         == if Counted(s, attr) && s.traffic != NOTHING then busy + {w.live[s.inode]} else busy
  {
    if Counted(s, attr) && w.live[s.inode] in missed {
      assert w.live[s.inode] in First(w, s, attr) * missed;
    }
  }

  lemma FoldOneWatched(w: World, a: Accum, b: Books, s: SockStat, attr: Attribution,
                       busy: set<nat>, busy': set<nat>, missed: set<nat>)
    requires WorldOk(w) && Lists(w, s) && Consistent(Run(w, a, b)) && Watched(w.live, b, busy, missed)
    requires busy' == busy + FirstBusy(w, s, attr) && First(w, s, attr) * missed == {}
    ensures Watched(w.live, Book(w, a.last, b, s, attr), busy', missed)
  {
    FirstMissed(w, s, attr, busy, missed);
    if Counted(s, attr) {
      FoldWatched(w, a, b, s, attr, busy, busy', missed, w.live[s.inode]);
    }
  }

  lemma FoldOneMissed(w: World, a: Accum, b: Books, s: SockStat, attr: Attribution, busy: set<nat>, missed: set<nat>)
    requires WorldOk(w) && Lists(w, s) && Watched(w.live, b, busy, missed) && First(w, s, attr) * missed != {}
    ensures Book(w, a.last, b, s, attr).recounted != NOTHING
  {
    FirstMissed(w, s, attr, busy, missed);
    FoldMissed(w, a, b, s, attr, busy, missed);
  }

  /** Either some socket folded in was missed before, and traffic is recounted, or
      the watch goes on. */
  ghost predicate WatchedOrRecounted(w: World, b: Books, again: bool, busy: set<nat>, missed: set<nat>) {
    if again then b.recounted != NOTHING else Watched(w.live, b, busy, missed)
  }

  lemma FoldSets(w: World, dump: seq<SockStat>, attr: Attribution, busy: set<nat>, missed: set<nat>)
    requires WorldOk(w) && Truthful(w, dump) && dump != [] && Lists(w, dump[0])
    ensures Folded(w, dump, attr) * missed != {}
            <==> First(w, dump[0], attr) * missed != {} || Folded(w, dump[1..], attr) * missed != {}
    ensures busy + Busy(w, dump, attr) == (busy + FirstBusy(w, dump[0], attr)) + Busy(w, dump[1..], attr)
  {
    FoldedCons(w, dump, attr);
    MeetOfUnion(First(w, dump[0], attr), Folded(w, dump[1..], attr), missed);
  }

  lemma {:induction false} WatchFolds(w: World, a: Accum, b: Books, dump: seq<SockStat>, attr: Attribution,
                                      busy: set<nat>, busy': set<nat>, missed: set<nat>, again: bool)
    requires WorldOk(w) && Truthful(w, dump) && Consistent(Run(w, a, b)) && Watched(w.live, b, busy, missed)
    requires busy' == busy + Busy(w, dump, attr) && (again <==> Folded(w, dump, attr) * missed != {})
    ensures WatchedOrRecounted(w, BookAll(w, a, b, dump, attr), again, busy', missed)
    decreases |dump|, 1
  {
    if dump == [] {
      assert busy + Busy(w, dump, attr) == busy;
    } else {
      assert Lists(w, dump[0]);
      FoldSets(w, dump, attr, busy, missed);
      if First(w, dump[0], attr) * missed != {} {
        FoldOneMissed(w, a, b, dump[0], attr, busy, missed);
        RecountedStays(w, FoldSock(a, dump[0], attr), Book(w, a.last, b, dump[0], attr), dump[1..], attr);
      } else {
        WatchRest(w, a, b, dump, attr, busy, busy', missed, again);
      }
    }
  }

  lemma {:induction false} WatchRest(w: World, a: Accum, b: Books, dump: seq<SockStat>, attr: Attribution,
                                     busy: set<nat>, busy': set<nat>, missed: set<nat>, again: bool)
    requires WorldOk(w) && Truthful(w, dump) && Consistent(Run(w, a, b)) && Watched(w.live, b, busy, missed)
    requires dump != [] && Lists(w, dump[0]) && First(w, dump[0], attr) * missed == {}
    requires busy' == (busy + FirstBusy(w, dump[0], attr)) + Busy(w, dump[1..], attr)
    requires again <==> Folded(w, dump[1..], attr) * missed != {}
    ensures WatchedOrRecounted(w, BookAll(w, a, b, dump, attr), again, busy', missed)
    decreases |dump|, 0
  {
    var more := busy + FirstBusy(w, dump[0], attr);
    FoldKeepsConsistent(w, a, b, dump[0], attr);
    FoldOneWatched(w, a, b, dump[0], attr, busy, more, missed);
    WatchFolds(w, FoldSock(a, dump[0], attr), Book(w, a.last, b, dump[0], attr), dump[1..], attr, more, busy', missed, again);
  }

  lemma MeetOfUnion(x: set<nat>, y: set<nat>, z: set<nat>)
    ensures (x + y) * z != {} <==> x * z != {} || y * z != {}
  {
    assert (x + y) * z == x * z + y * z;
  }

  /** Forgetting what the dump does not list is what missing a socket does. */
  lemma WatchPrune(w: World, b: Books, dump: seq<SockStat>, busy: set<nat>, missed: set<nat>)
    requires WorldOk(w) && Watched(w.live, b, busy, missed)
    ensures Watched(w.live, b.(owner := Prune(b.owner, dump)), busy, missed + busy * Missing(w, dump))
  {
    var b' := b.(owner := Prune(b.owner, dump));
    forall i | i in w.live && w.live[i] in busy
      ensures Owns(b', i, w.live[i]) <==> w.live[i] !in missed + busy * Missing(w, dump)
    {
      MissingOf(w, dump, i);
    }
  }

  lemma MissingOf(w: World, dump: seq<SockStat>, i: nat)
    requires WorldOk(w) && i in w.live
    ensures w.live[i] in Missing(w, dump) <==> dump != [] && i !in Inodes(dump)
  {
    if j :| j in w.live && w.live[j] == w.live[i] {
      assert w.socks[w.live[j]].inode == j;
    }
  }

  /** A socket listed is not missing. */
  lemma ListedNotMissing(w: World, dump: seq<SockStat>, attr: Attribution)
    requires WorldOk(w) && Truthful(w, dump)
    ensures Busy(w, dump, attr) * Missing(w, dump) == {}
  {
    forall s | s in dump ensures w.live[s.inode] !in Missing(w, dump) {
      MissingOf(w, dump, s.inode);
    }
  }

  lemma PlayPoll(r: Run, dump: seq<SockStat>, attr: Attribution)
    requires WorldOk(r.world) && Truthful(r.world, dump)
    ensures var r', b := Play(r, Poll(dump, attr)), BookAll(r.world, r.accum, r.books, dump, attr);
            r'.world.live == r.world.live && r'.books == b.(owner := Prune(b.owner, dump))
  {
  }

  lemma WatchPoll(r: Run, dump: seq<SockStat>, attr: Attribution, busy: set<nat>, missed: set<nat>)
    requires Consistent(r) && Truthful(r.world, dump) && Watched(r.world.live, r.books, busy, missed)
    ensures var r' := Play(r, Poll(dump, attr));
            if Folded(r.world, dump, attr) * missed != {} then r'.books.recounted != NOTHING
            else Watched(r'.world.live, r'.books, busy + Busy(r.world, dump, attr), missed + busy * Missing(r.world, dump))
  {
    var w, more := r.world, Busy(r.world, dump, attr);
    WatchFolds(w, r.accum, r.books, dump, attr, busy, busy + more, missed, Folded(w, dump, attr) * missed != {});
    PlayPoll(r, dump, attr);
    if Folded(w, dump, attr) * missed == {} {
      WatchPrune(w, BookAll(w, r.accum, r.books, dump, attr), dump, busy + more, missed);
      ListedNotMissing(w, dump, attr);
      MissedOf(busy, more, Missing(w, dump));
    }
  }

  lemma MissedOf(x: set<nat>, y: set<nat>, z: set<nat>)
    requires y * z == {}
    ensures (x + y) * z == x * z
  {
    assert (x + y) * z == x * z + y * z;
  }

  lemma WatchEvolve(r: Run, e: Event, busy: set<nat>, missed: set<nat>)
    requires Consistent(r) && Possible(r.world, e) && !e.Poll? && Watched(r.world.live, r.books, busy, missed)
    ensures Watched(Play(r, e).world.live, Play(r, e).books, busy, missed)
  {
    if e.Open? {
      assert |r.world.socks| !in r.books.seen;
    }
  }

  lemma {:induction false} RecountedForGood(r: Run, es: seq<Event>)
    requires WorldOk(r.world) && Runs(r.world, es) && r.books.recounted != NOTHING
    ensures PlayAll(r, es).books.recounted != NOTHING
    decreases |es|
  {
    if es != [] {
      if es[0].Poll? {
        RecountedStays(r.world, r.accum, r.books, es[0].dump, es[0].attr);
      }
      RecountedForGood(Play(r, es[0]), es[1..]);
    }
  }

  lemma {:induction false} WatchAll(r: Run, es: seq<Event>, busy: set<nat>, missed: set<nat>)
    requires Consistent(r) && Runs(r.world, es) && Watched(r.world.live, r.books, busy, missed)
    ensures PlayAll(r, es).books.recounted != NOTHING <==> FoldsAgain(r.world, busy, missed, es)
    decreases |es|
  {
    if es != [] {
      var e := es[0];
      var r', rest := Play(r, e), es[1..];
      PlayKeepsConsistent(r, e);
      match e
      case Poll(dump, attr) =>
        WatchPoll(r, dump, attr, busy, missed);
        if Folded(r.world, dump, attr) * missed != {} {
          RecountedForGood(r', rest);
        } else {
          WatchAll(r', rest, busy + Busy(r.world, dump, attr), missed + busy * Missing(r.world, dump));
        }
      case _ =>
        WatchEvolve(r, e, busy, missed);
        WatchAll(r', rest, busy, missed);
    }
  }

  /** In every run, with any dumps: traffic is recounted if and only if some socket
      is folded in with traffic, then missed by a non-empty dump while it is open,
      then folded in again. */
  lemma RecountedExactly(es: seq<Event>)
    requires Runs(BEGIN.world, es)
    ensures PlayAll(BEGIN, es).books.recounted != NOTHING <==> FoldsAgain(BEGIN.world, {}, {}, es)
  {
    WatchAll(BEGIN, es, {}, {});
  }

  lemma {:induction false} FoldKeepsRecord(w: World, a: Accum, dump: seq<SockStat>, attr: Attribution, i: nat)
    requires WorldOk(w) && Truthful(w, dump) && i in w.live
    requires i in a.last && a.last[i] == w.socks[w.live[i]].traffic
    ensures i in FoldAll(a, dump, attr).last && FoldAll(a, dump, attr).last[i] == a.last[i]
    decreases |dump|
  {
    if dump != [] {
      assert Lists(w, dump[0]);
      FoldKeepsRecord(w, FoldSock(a, dump[0], attr), dump[1..], attr, i);
    }
  }

  /** Why a dump must be whole or empty. A socket whose counters are already in
      the totals, and which carries nothing more, adds nothing at its next poll
      exactly when the poll in between was empty or listed it: a dump that lost
      its address family makes its traffic count twice. */
  lemma MissedSocketCountsTwice(r: Run, i: nat, dump: seq<SockStat>, attr: Attribution, key: string)
    requires WorldOk(r.world) && i in r.world.live && Truthful(r.world, dump)
    requires var k := r.world.socks[r.world.live[i]];
             && i in r.accum.last && r.accum.last[i] == k.traffic && k.traffic != NOTHING
             && !IsLoopback(k.remote)
    ensures var k := r.world.socks[r.world.live[i]];
            var between := Update(r.accum, dump, attr);
            var next := Update(between, [SockStat(k.remote, k.port, i, k.traffic)], map[i := key]);
            Total(next.totals, key) == Total(between.totals, key) <==> (dump == [] || i in Inodes(dump))
  {
    var k := r.world.socks[r.world.live[i]];
    var between := Update(r.accum, dump, attr);
    var s := SockStat(k.remote, k.port, i, k.traffic);
    FoldKeepsRecord(r.world, r.accum, dump, attr, i);
    LoneSocket(between, s, key);
    PlusNothing(Total(between.totals, key), Delta(between.last, s));
    if dump == [] || i in Inodes(dump) {
      assert i in between.last && between.last[i] == k.traffic;
    } else {
      assert i !in between.last;
    }
  }

  /** And why its counters must be right. Between two true readings of a socket
      another one is folded in: the total grows by what the socket carried
      exactly when that reading lies between the two. One that is too low makes
      traffic count twice; ThroughputFailures has the bytes of a cut dump that
      gives such a reading. */
  lemma DipCountsTwice(a: Accum, s: SockStat, reading: Traffic, later: Traffic, key: string, d: Direction)
    requires !IsLoopback(s.remoteIp) && s.inode in a.last && a.last[s.inode] == s.traffic
    requires Pick(s.traffic, d) <= Pick(later, d)
    ensures var attr := map[s.inode := key];
            var next := Update(Update(a, [s.(traffic := reading)], attr), [s.(traffic := later)], attr);
            Pick(Total(next.totals, key), d) - Pick(Total(a.totals, key), d) == Pick(later, d) - Pick(s.traffic, d)
            <==> Pick(s.traffic, d) <= Pick(reading, d) <= Pick(later, d)
  {
    var dip, attr := s.(traffic := reading), map[s.inode := key];
    var b := Update(a, [dip], attr);
    LoneRecord(a, dip, key);
    LoneGrowth(a, dip, key, d);
    LoneGrowth(b, s.(traffic := later), key, d);
    DipArithmetic(Pick(s.traffic, d), Pick(reading, d), Pick(later, d));
  }

  lemma DipArithmetic(x: nat, y: nat, z: nat)
    requires x <= z
    ensures Monus(y, x) + Monus(z, y) == z - x <==> x <= y <= z
  {
  }

  lemma LoneGrowth(a: Accum, s: SockStat, key: string, d: Direction)
    requires !IsLoopback(s.remoteIp) && s.inode in a.last
    ensures Pick(Total(Update(a, [s], map[s.inode := key]).totals, key), d)
         == Pick(Total(a.totals, key), d) + Monus(Pick(s.traffic, d), Pick(a.last[s.inode], d))
  {
    LoneSocket(a, s, key);
  }

  lemma LoneRecord(a: Accum, s: SockStat, key: string)
    requires !IsLoopback(s.remoteIp)
    ensures var last := Update(a, [s], map[s.inode := key]).last;
            s.inode in last && last[s.inode] == s.traffic
  {
    var one, attr := [s], map[s.inode := key];
    assert one[1..] == [] && one[0] == s;
    assert FoldAll(a, one, attr) == FoldSock(a, s, attr);
    assert s.inode in Inodes(one);
  }

  lemma PlusNothing(a: Traffic, b: Traffic)
    ensures Plus(a, b) == a <==> b == NOTHING
  {
  }

  lemma LoneSocket(a: Accum, s: SockStat, key: string)
    requires !IsLoopback(s.remoteIp)
    ensures Total(Update(a, [s], map[s.inode := key]).totals, key) == Plus(Total(a.totals, key), Delta(a.last, s))
  {
    var one, attr := [s], map[s.inode := key];
    assert one[1..] == [] && one[0] == s;
    assert FoldAll(a, one, attr) == FoldSock(a, s, attr);
  }

  // ---------------------------------------------------------------- nor too little

  /** No inode number is taken again before a non-empty dump has lacked it. */
  predicate NoEarlyReuse(w: World, es: seq<Event>)
    requires WorldOk(w) && Runs(w, es)
    decreases |es|
  {
    es != [] ==>
      && (es[0].Open? ==> es[0].inode !in w.lingering)
      && NoEarlyReuse(Evolve(w, es[0]), es[1..])
  }

  /** A record under inode i belongs to the open socket, or the inode lingers. */
  predicate Belongs(w: World, i: nat, id: nat) {
    if i in w.live then id == w.live[i] else i in w.lingering
  }

  ghost predicate Unmixed(w: World, last: map<nat, Traffic>, b: Books) {
    && b.inherited == NOTHING
    && last.Keys <= b.owner.Keys
    && forall i :: i in b.owner ==> Belongs(w, i, b.owner[i])
  }

  lemma BookBelongs(w: World, last: map<nat, Traffic>, b: Books, s: SockStat, attr: Attribution, i: nat)
    requires WorldOk(w) && Lists(w, s) && i in Book(w, last, b, s, attr).owner
    requires i in b.owner ==> Belongs(w, i, b.owner[i])
    ensures Belongs(w, i, Book(w, last, b, s, attr).owner[i])
  {
  }

  lemma BookInheritsNothing(w: World, last: map<nat, Traffic>, b: Books, s: SockStat, attr: Attribution)
    requires WorldOk(w) && Lists(w, s) && b.inherited == NOTHING
    requires s.inode in last ==> s.inode in b.owner
    requires s.inode in b.owner ==> b.owner[s.inode] == w.live[s.inode]
    ensures Book(w, last, b, s, attr).inherited == NOTHING
  {
  }

  lemma BookRecords(w: World, a: Accum, b: Books, s: SockStat, attr: Attribution)
    requires WorldOk(w) && Lists(w, s) && a.last.Keys <= b.owner.Keys
    ensures FoldSock(a, s, attr).last.Keys <= Book(w, a.last, b, s, attr).owner.Keys
  {
  }

  lemma BooksBelong(w: World, last: map<nat, Traffic>, b: Books, s: SockStat, attr: Attribution)
    requires WorldOk(w) && Lists(w, s) && forall i :: i in b.owner ==> Belongs(w, i, b.owner[i])
    ensures var b' := Book(w, last, b, s, attr);
            forall i :: i in b'.owner ==> Belongs(w, i, b'.owner[i])
  {
    var owner := Book(w, last, b, s, attr).owner;
    forall i | i in owner ensures Belongs(w, i, owner[i]) {
      BookBelongs(w, last, b, s, attr, i);
    }
  }

  lemma FoldUnmixed(w: World, a: Accum, b: Books, s: SockStat, attr: Attribution)
    requires WorldOk(w) && Lists(w, s) && Unmixed(w, a.last, b)
    ensures Unmixed(w, FoldSock(a, s, attr).last, Book(w, a.last, b, s, attr))
  {
    assert s.inode in b.owner ==> Belongs(w, s.inode, b.owner[s.inode]);
    BookInheritsNothing(w, a.last, b, s, attr);
    BookRecords(w, a, b, s, attr);
    BooksBelong(w, a.last, b, s, attr);
  }

  lemma {:induction false} PollUnmixed(w: World, a: Accum, b: Books, dump: seq<SockStat>, attr: Attribution)
    requires WorldOk(w) && Truthful(w, dump) && Unmixed(w, a.last, b)
    ensures Unmixed(w, FoldAll(a, dump, attr).last, BookAll(w, a, b, dump, attr))
    decreases |dump|
  {
    if dump != [] {
      FoldUnmixed(w, a, b, dump[0], attr);
      PollUnmixed(w, FoldSock(a, dump[0], attr), Book(w, a.last, b, dump[0], attr), dump[1..], attr);
    }
  }

  lemma PlayUnmixed(r: Run, e: Event)
    requires WorldOk(r.world) && Unmixed(r.world, r.accum.last, r.books) && Possible(r.world, e)
    requires e.Open? ==> e.inode !in r.world.lingering
    ensures var r' := Play(r, e); Unmixed(r'.world, r'.accum.last, r'.books)
  {
    var r' := Play(r, e);
    if e.Poll? {
      PollUnmixed(r.world, r.accum, r.books, e.dump, e.attr);
      var b := BookAll(r.world, r.accum, r.books, e.dump, e.attr);
      forall i | i in r'.books.owner ensures Belongs(r'.world, i, r'.books.owner[i]) {
        assert Belongs(r.world, i, b.owner[i]);
      }
    } else {
      forall i | i in r'.books.owner ensures Belongs(r'.world, i, r'.books.owner[i]) {
        assert Belongs(r.world, i, r.books.owner[i]);
      }
    }
  }

  lemma {:induction false} PlayAllUnmixed(r: Run, es: seq<Event>)
    requires WorldOk(r.world) && Unmixed(r.world, r.accum.last, r.books)
    requires Runs(r.world, es) && NoEarlyReuse(r.world, es)
    ensures PlayAll(r, es).books.inherited == NOTHING
    decreases |es|
  {
    if es != [] {
      PlayUnmixed(r, es[0]);
      PlayAllUnmixed(Play(r, es[0]), es[1..]);
    }
  }

  /** If besides no inode number is taken again too early, the totals are exactly
      what the sockets had carried when last folded in: across empty dumps,
      unattributed polls, and sockets that move between feeders. */
  lemma Conservation(es: seq<Event>, keys: seq<string>, d: Direction)
    requires Distinct(keys) && Runs(BEGIN.world, es) && Attributes(es, keys)
    requires WholeDumps(BEGIN.world, es) && NoEarlyReuse(BEGIN.world, es)
    ensures var r := PlayAll(BEGIN, es);
            FarOnly(r) && SumTotals(r.accum.totals, keys, d) == SumSeen(r.books, |r.world.socks|, d)
  {
    ExactAccounting(es, keys, d);
    PlayAllRemembers(BEGIN, es);
    PlayAllUnmixed(BEGIN, es);
  }

  /** If no inode number is retaken too early, that takes no assumption on the
      dumps but this: the totals are exactly what the sockets had carried when last
      folded in if and only if no socket is folded in with traffic, then missed by
      a non-empty dump while it is open, then folded in again. */
  lemma ExactUnlessFoldedAgain(es: seq<Event>, keys: seq<string>)
    requires Distinct(keys) && Runs(BEGIN.world, es) && Attributes(es, keys) && NoEarlyReuse(BEGIN.world, es)
    ensures var r := PlayAll(BEGIN, es);
            (forall d :: SumTotals(r.accum.totals, keys, d) == SumSeen(r.books, |r.world.socks|, d))
            <==> !FoldsAgain(BEGIN.world, {}, {}, es)
  {
    var r := PlayAll(BEGIN, es);
    RecountedExactly(es);
    PlayAllUnmixed(BEGIN, es);
    ExactAccounting(es, keys, Sent);
    ExactAccounting(es, keys, Received);
    assert r.books.recounted == NOTHING <==> Pick(r.books.recounted, Sent) == 0 && Pick(r.books.recounted, Received) == 0;
  }
}
