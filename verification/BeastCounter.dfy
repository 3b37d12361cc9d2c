/** BeastDfCounter of aviation_feeder_mqtt/beast.py: the running tally fed by
    the reader and emptied by each snapshot. */
module BeastCounter {
  import opened Bytes
  import opened Beast
  import opened BeastStream
  import opened BeastParser
  import opened BeastReader

  /** Tally keys: one of the 32 downlink formats, or Mode A/C, which has none. */
  datatype DfKey = ModeAC | Df(n: nat)

  type Counts = map<DfKey, nat>

  /** The key a frame is tallied under; a frame without payload is not tallied.
      The downlink format is the top five bits of the first payload byte. */
  function KeyOf(f: Frame): Option<DfKey> {
    if f.ftype == 0x31 then Some(ModeAC)
    else if f.payload != [] then Some(Df(f.payload[0] / 8))
    else None
  }

  function Get(m: Counts, k: DfKey): nat {
    if k in m then m[k] else 0
  }

  function Bump(m: Counts, f: Frame): Counts {
    match KeyOf(f)
    case None => m
    case Some(k) => m[k := Get(m, k) + 1]
  }

  function Tally(m: Counts, frames: seq<Frame>): Counts
    decreases |frames|
  {
    if frames == [] then m else Tally(Bump(m, frames[0]), frames[1..])
  }

  /** How many frames belong to key k. */
  function CountKey(frames: seq<Frame>, k: DfKey): nat {
    if frames == [] then 0
    else (if KeyOf(frames[0]) == Some(k) then 1 else 0) + CountKey(frames[1..], k)
  }

  lemma {:induction false} TallyConcat(m: Counts, a: seq<Frame>, b: seq<Frame>)
    ensures Tally(m, a + b) == Tally(Tally(m, a), b)
    decreases |a|
  {
    if a == [] {
      assert a + b == b;
    } else {
      assert (a + b)[1..] == a[1..] + b;
      TallyConcat(Bump(m, a[0]), a[1..], b);
    }
  }

  /** The tally under each key is the number of frames that belong to it. */
  lemma {:induction false} TallyCounts(m: Counts, frames: seq<Frame>, k: DfKey)
    ensures Get(Tally(m, frames), k) == Get(m, k) + CountKey(frames, k)
    decreases |frames|
  {
    if frames != [] {
      TallyCounts(Bump(m, frames[0]), frames[1..], k);
    }
  }

  lemma {:induction false} CountConcat(a: seq<Frame>, b: seq<Frame>, k: DfKey)
    ensures CountKey(a + b, k) == CountKey(a, k) + CountKey(b, k)
    decreases |a|
  {
    if a == [] {
      assert a + b == b;
    } else {
      assert (a + b)[1..] == a[1..] + b;
      CountConcat(a[1..], b, k);
    }
  }

  /** The rates a snapshot publishes: none without a baseline or elapsed time. */
  function Rates(counts: Counts, last: Option<real>, now: real): map<DfKey, real> {
    if last == None || now - last.value <= 0.0 then map[]
    else map k | k in counts :: counts[k] as real / (now - last.value)
  }

  lemma TallyChunk(m: Counts, r: Reading, chunk: seq<Byte>)
    ensures Tally(m, ReadChunk(r, chunk).frames) == Tally(Tally(m, r.frames), Parse(r.buf + chunk).frames)
  {
    TallyConcat(m, r.frames, Parse(r.buf + chunk).frames);
  }

  /** What a connection has carried over and tallied after these reads. */
  ghost predicate UpTo(chunks: seq<seq<Byte>>, buf: seq<Byte>, start: Counts, counts: Counts) {
    var r := ReadAll(OPENED, chunks);
    buf == r.buf && counts == Tally(start, r.frames)
  }

  class BeastDfCounter {
    var counts: Counts
    var lastSnapshotAt: Option<real>

    constructor ()
      ensures counts == map[] && lastSnapshotAt == None
    {
      counts, lastSnapshotAt := map[], None;
    }

    method CountDfs(frames: seq<Frame>)
      modifies this`counts
      ensures counts == Tally(old(counts), frames)
    {
      assert frames[..|frames|] == frames && frames[..0] == [];
      for i := 0 to |frames|
        invariant counts == Tally(old(counts), frames[..i])
      {
        var f := frames[i];
        ghost var before := counts;
        if f.ftype == 0x31 {
          counts := counts[ModeAC := Get(counts, ModeAC) + 1];
        } else if f.payload != [] {
          var df := f.payload[0] / 8;
          counts := counts[Df(df) := Get(counts, Df(df)) + 1];
        }
        assert frames[..i + 1] == frames[..i] + [f];
        TallyConcat(old(counts), frames[..i], [f]);
        assert Tally(before, [f]) == Bump(before, f) by {
          assert [f][1..] == [];
        }
      }
    }

    /** One read of a connection: parse, carry the tail forward, tally. */
    method Receive(carried: seq<Byte>, chunk: seq<Byte>) returns (buf: seq<Byte>)
      modifies this`counts
      ensures counts == Tally(old(counts), Parse(carried + chunk).frames)
      ensures forall r: Reading :: r.buf == carried ==> buf == ReadChunk(r, chunk).buf
    {
      buf := carried + chunk;
      RestartPoint(buf);
      var frames, consumed := ParseFrames(buf);
      if consumed != 0 {
        buf := buf[consumed..];
      }
      // The size guard: nothing is kept of a leftover this long.
      if |buf| > MAX_BUFFER_BYTES {
        buf := [];
      }
      if frames != [] {
        CountDfs(frames);
      }
    }

    /** One more read of a connection whose counts were `start` when it was opened. */
    method ReadOn(carried: seq<Byte>, chunk: seq<Byte>, ghost read: seq<seq<Byte>>, ghost start: Counts) returns (buf: seq<Byte>)
      requires UpTo(read, carried, start, counts)
      modifies this`counts
      ensures UpTo(read + [chunk], buf, start, counts)
    {
      ghost var r := ReadAll(OPENED, read);
      TallyChunk(start, r, chunk);
      ReadSnoc(OPENED, read, chunk);
      buf := Receive(carried, chunk);
      assert buf == ReadChunk(r, chunk).buf;
    }

    /** One connection: read until the stream closes or shutdown ends the reads
        (both are an empty read here). */
    method RunConnection(chunks: seq<seq<Byte>>) returns (ghost used: nat)
      modifies this`counts
      ensures used <= |chunks| && (forall k :: 0 <= k < used ==> chunks[k] != [])
      ensures used < |chunks| ==> chunks[used] == []
      ensures counts == Tally(old(counts), ReadAll(OPENED, chunks[..used]).frames)
    {
      ghost var read, start := [], counts;
      var buf := [];
      used := 0;
      for i := 0 to |chunks|
        invariant used == i && read == chunks[..i]
        invariant forall k :: 0 <= k < i ==> chunks[k] != []
        invariant UpTo(read, buf, start, counts)
      {
        if chunks[i] == [] {
          break;
        }
        buf := ReadOn(buf, chunks[i], read, start);
        read, used := read + [chunks[i]], i + 1;
      }
    }

    /** Per-second rates since the previous snapshot; the tally starts again. */
    method Snapshot(now: real) returns (rates: map<DfKey, real>)
      modifies this
      ensures rates == Rates(old(counts), old(lastSnapshotAt), now)
      ensures counts == map[] && lastSnapshotAt == Some(now)
    {
      var current := counts;
      counts := map[];
      var prev := lastSnapshotAt;
      lastSnapshotAt := Some(now);
      if prev == None {
        return map[];
      }
      var elapsed := now - prev.value;
      if elapsed <= 0.0 {
        return map[];
      }
      return map k | k in current :: current[k] as real / elapsed;
    }
  }

  // ---------------------------------------------------------------- conservation

  /** What can happen to a counter: a read, the connection ending, a snapshot. */
  datatype Event = Chunk(bytes: seq<Byte>) | Closed | Snap(now: real)

  /** A run so far. `done` holds the frames of connections that have ended; for
      one key, `published` is the sum of each published rate times the interval
      it covers, and `dropped` what snapshots without an interval threw away. */
  datatype State = State(
    done: seq<Frame>, conn: Reading,
    counts: Counts, last: Option<real>,
    published: real, dropped: nat)
  {
    function Parsed(): seq<Frame> {
      done + conn.frames
    }
  }

  const BEGIN: State := State([], OPENED, map[], None, 0.0, 0)

  function Play(s: State, e: Event, k: DfKey): State {
    match e
    case Chunk(bytes) =>
      var conn := ReadChunk(s.conn, bytes);
      s.(conn := conn, counts := Tally(s.counts, conn.frames[|s.conn.frames|..]))
    case Closed =>
      s.(done := s.Parsed(), conn := OPENED)
    case Snap(now) =>
      var rates := Rates(s.counts, s.last, now);
      s.(counts := map[], last := Some(now),
         published := s.published + (if k in rates then rates[k] * (now - s.last.value) else 0.0),
         dropped := s.dropped + (if rates == map[] then Get(s.counts, k) else 0))
  }

  function PlayAll(s: State, es: seq<Event>, k: DfKey): State
    decreases |es|
  {
    if es == [] then s else PlayAll(Play(s, es[0], k), es[1..], k)
  }

  ghost predicate Balanced(s: State, k: DfKey) {
    s.published + (Get(s.counts, k) + s.dropped) as real == CountKey(s.Parsed(), k) as real
  }

  lemma RateTimesElapsed(v: nat, elapsed: real)
    requires elapsed > 0.0
    ensures (v as real / elapsed) * elapsed == v as real
  {
  }

  lemma ChunkBalances(s: State, bytes: seq<Byte>, k: DfKey)
    requires Balanced(s, k)
    ensures Balanced(Play(s, Chunk(bytes), k), k)
  {
    var fresh' := Parse(s.conn.buf + bytes).frames;
    var conn := ReadChunk(s.conn, bytes);
    assert conn.frames[|s.conn.frames|..] == fresh';
    TallyCounts(s.counts, fresh', k);
    CountConcat(s.Parsed(), fresh', k);
    ConcatAssoc(s.done, s.conn.frames, fresh');
  }

  lemma SnapBalances(s: State, now: real, k: DfKey)
    requires Balanced(s, k)
    ensures Balanced(Play(s, Snap(now), k), k)
  {
    if k in Rates(s.counts, s.last, now) {
      RateTimesElapsed(s.counts[k], now - s.last.value);
    }
  }

  lemma PlayBalances(s: State, e: Event, k: DfKey)
    requires Balanced(s, k)
    ensures Balanced(Play(s, e, k), k)
  {
    match e
    case Chunk(bytes) => ChunkBalances(s, bytes, k);
    case Closed => assert s.Parsed() + [] == s.Parsed();
    case Snap(now) => SnapBalances(s, now, k);
  }

  lemma {:induction false} PlayAllBalances(s: State, es: seq<Event>, k: DfKey)
    requires Balanced(s, k)
    ensures Balanced(PlayAll(s, es, k), k)
    decreases |es|
  {
    if es != [] {
      PlayBalances(s, es[0], k);
      PlayAllBalances(Play(s, es[0], k), es[1..], k);
    }
  }

  /** No frame is counted twice or lost between snapshots: at every moment of
      every run, for every key, published rate times time, plus the live tally,
      plus what interval-less snapshots dropped, is the number of frames of that
      key parsed off the stream. */
  lemma TallyConserved(es: seq<Event>, k: DfKey)
    ensures Balanced(PlayAll(BEGIN, es, k), k)
  {
    PlayAllBalances(BEGIN, es, k);
  }

  // ---------------------------------------------------------------- which key

  /** A Mode-S frame is tallied under its downlink format: the upper five bits of
      the first payload byte. */
  lemma TalliedByFormat(w: Wire, df: nat, low: nat)
    requires w.Valid() && w.ftype != 0x31 && df < 32 && low < 8 && w.payload[0] == 8 * df + low
    ensures Tally(map[], [w.Parsed()]) == map[Df(df) := 1]
  {
    TallyOne(w.Parsed());
  }

  /** A Mode A/C frame has no downlink format, whatever its payload. */
  lemma TalliedAsModeAC(w: Wire)
    requires w.Valid() && w.ftype == 0x31
    ensures Tally(map[], [w.Parsed()]) == map[ModeAC := 1]
  {
    TallyOne(w.Parsed());
  }

  lemma TallyOne(f: Frame)
    ensures Tally(map[], [f]) == Bump(map[], f)
  {
    assert [f][1..] == [];
  }

  /** One frame read from the start leaves it found and tallied, and nothing else. */
  lemma OneFrameRead(w: Wire, k: DfKey)
    requires w.Valid()
    ensures PlayAll(BEGIN, [Chunk(w.Encode())], k).Parsed() == [w.Parsed()]
    ensures PlayAll(BEGIN, [Chunk(w.Encode())], k).counts == Tally(map[], [w.Parsed()])
  {
    var es, bytes := [Chunk(w.Encode())], w.Encode();
    FrameRead(START, w);
    assert es[1..] == [] && OPENED.buf + bytes == bytes;
    assert Parse(bytes).frames == [] + [w.Parsed()];
    var conn := ReadChunk(OPENED, bytes);
    assert conn.frames == [w.Parsed()] && conn.frames[|OPENED.frames|..] == conn.frames;
    assert PlayAll(BEGIN, es, k) == Play(BEGIN, es[0], k);
  }

  /** The same of a read: a squitter's bytes leave exactly one count, under its
      downlink format. */
  lemma FormatRead(w: Wire, df: nat, low: nat, k: DfKey)
    requires w.Valid() && w.ftype != 0x31 && df < 32 && low < 8 && w.payload[0] == 8 * df + low
    ensures PlayAll(BEGIN, [Chunk(w.Encode())], k).counts == map[Df(df) := 1]
  {
    OneFrameRead(w, k);
    TalliedByFormat(w, df, low);
  }

  lemma ModeACRead(w: Wire, k: DfKey)
    requires w.Valid() && w.ftype == 0x31
    ensures PlayAll(BEGIN, [Chunk(w.Encode())], k).counts == map[ModeAC := 1]
  {
    OneFrameRead(w, k);
    TalliedAsModeAC(w);
  }

  // ---------------------------------------------------------------- nothing dropped

  /** A snapshot with a baseline and elapsed time publishes every key tallied, at
      its count over the time. */
  lemma SnapshotPublishesAll(counts: Counts, last: real, now: real)
    requires last < now
    ensures Rates(counts, Some(last), now).Keys == counts.Keys
    ensures forall k <- counts :: Rates(counts, Some(last), now)[k] * (now - last) == counts[k] as real
  {
    forall k | k in counts ensures Rates(counts, Some(last), now)[k] * (now - last) == counts[k] as real {
      RateTimesElapsed(counts[k], now - last);
    }
  }

  /** So only a snapshot without a baseline or elapsed time drops anything, and
      that one drops the whole tally. */
  lemma DroppedOnlyThen(s: State, now: real, k: DfKey)
    ensures Play(s, Snap(now), k).dropped - s.dropped
         == if s.last == None || now <= s.last.value then Get(s.counts, k) else 0
  {
    if s.last.Some? && s.last.value < now {
      SnapshotPublishesAll(s.counts, s.last.value, now);
    }
  }

  // ---------------------------------------------------------------- every frame has one

  function CountDfsBelow(frames: seq<Frame>, n: nat): nat {
    if n == 0 then 0 else CountDfsBelow(frames, n - 1) + CountKey(frames, Df(n - 1))
  }

  lemma {:induction false} CountDfsBelowOne(f: Frame, rest: seq<Frame>, n: nat)
    ensures CountDfsBelow([f] + rest, n)
         == CountDfsBelow(rest, n) + (if KeyOf(f).Some? && KeyOf(f).value.Df? && KeyOf(f).value.n < n then 1 else 0)
  {
    assert ([f] + rest)[1..] == rest;
    if n > 0 {
      CountDfsBelowOne(f, rest, n - 1);
    }
  }

  /** Every frame with a payload lands in exactly one of the 33 keys. */
  lemma {:induction false} KeysPartition(frames: seq<Frame>)
    requires forall f <- frames :: f.payload != []
    ensures CountKey(frames, ModeAC) + CountDfsBelow(frames, 32) == |frames|
  {
    if frames == [] {
      ZeroBelow(32);
    } else {
      KeysPartition(frames[1..]);
      CountDfsBelowOne(frames[0], frames[1..], 32);
      assert frames == [frames[0]] + frames[1..];
    }
  }

  lemma {:induction false} ZeroBelow(n: nat)
    ensures CountDfsBelow([], n) == 0
  {
    if n > 0 {
      ZeroBelow(n - 1);
    }
  }

  lemma {:induction false} PayloadsNonEmpty(s: State, es: seq<Event>, k: DfKey)
    requires forall f <- s.Parsed() :: f.payload != []
    ensures forall f <- PlayAll(s, es, k).Parsed() :: f.payload != []
    decreases |es|
  {
    if es != [] {
      if es[0].Chunk? {
        ParsedShape(s.conn.buf + es[0].bytes);
      }
      PayloadsNonEmpty(Play(s, es[0], k), es[1..], k);
    }
  }

  /** And the 33 keys together account for every frame parsed in any run. */
  lemma EveryFrameTallied(es: seq<Event>, k: DfKey)
    ensures var frames := PlayAll(BEGIN, es, k).Parsed();
            CountKey(frames, ModeAC) + CountDfsBelow(frames, 32) == |frames|
  {
    PayloadsNonEmpty(BEGIN, es, k);
    KeysPartition(PlayAll(BEGIN, es, k).Parsed());
  }
}
