/** The streaming reader of aviation_feeder_mqtt/beast.py: the carry-the-tail
    loop of BeastDfCounter, on values. */
module BeastReader {
  import opened Bytes
  import opened Beast
  import opened BeastStream

  const MAX_BUFFER_BYTES: nat := 0x10_0000
  const MAX_FRAME: nat := 2 + 2 * 21 // the longest frame, every byte an escape byte

  /** The bytes after the last frame found. */
  function Leftover(s: seq<Byte>): seq<Byte> {
    RestartPoint(s);
    s[Parse(s).consumed..]
  }

  /** Frames found on a connection so far, and the buffer carried forward. */
  datatype Reading = Reading(frames: seq<Frame>, buf: seq<Byte>)

  const OPENED: Reading := Reading([], [])

  /** One turn of the loop: parse, drop what was consumed, guard the size. */
  function ReadChunk(r: Reading, chunk: seq<Byte>): Reading {
    var buf := r.buf + chunk;
    var tail := Leftover(buf);
    Reading(r.frames + Parse(buf).frames, if |tail| > MAX_BUFFER_BYTES then [] else tail)
  }

  function ReadAll(r: Reading, chunks: seq<seq<Byte>>): Reading
    decreases |chunks|
  {
    if chunks == [] then r else ReadAll(ReadChunk(r, chunks[0]), chunks[1..])
  }

  lemma {:induction false} ReadAllConcat(r: Reading, xs: seq<seq<Byte>>, ys: seq<seq<Byte>>)
    ensures ReadAll(r, xs + ys) == ReadAll(ReadAll(r, xs), ys)
    decreases |xs|
  {
    if xs == [] {
      assert xs + ys == ys;
    } else {
      assert (xs + ys)[1..] == xs[1..] + ys;
      ReadAllConcat(ReadChunk(r, xs[0]), xs[1..], ys);
    }
  }

  lemma ReadOne(r: Reading, chunk: seq<Byte>)
    ensures ReadAll(r, [chunk]) == ReadChunk(r, chunk)
  {
    var one: seq<seq<Byte>> := [chunk];
    assert one[1..] == [] && one[0] == chunk;
  }

  lemma ReadSnoc(r: Reading, init: seq<seq<Byte>>, chunk: seq<Byte>)
    ensures ReadAll(r, init + [chunk]) == ReadChunk(ReadAll(r, init), chunk)
    ensures Join(init + [chunk]) == Join(init) + chunk
  {
    ReadAllConcat(r, init, [chunk]);
    JoinConcat(init, [chunk]);
    JoinOne(chunk);
    ReadOne(ReadAll(r, init), chunk);
  }

  /** The leftover of a longer stream is the leftover of leftover plus chunk. */
  lemma LeftoverChunk(s: seq<Byte>, chunk: seq<Byte>)
    ensures Leftover(s + chunk) == Leftover(Leftover(s) + chunk)
    ensures Parse(s + chunk).frames == Parse(s).frames + Parse(Leftover(s) + chunk).frames
  {
    ChunkInvariance(s, chunk);
    RestartPoint(s + chunk);
    RestartPoint(Leftover(s) + chunk);
    var c, d := Parse(s).consumed, Parse(Leftover(s) + chunk).consumed;
    assert s + chunk == s[..c] + (Leftover(s) + chunk);
    assert (s + chunk)[c + d..] == (Leftover(s) + chunk)[d..];
  }

  // ---------------------------------------------------------------- chunking does not matter

  /** None of these reads leaves more than the guard allows. */
  ghost predicate Quiet(chunks: seq<seq<Byte>>) {
    forall k :: 0 <= k <= |chunks| ==> |Leftover(Join(chunks[..k]))| <= MAX_BUFFER_BYTES
  }

  /** However the stream is cut into reads, as long as the size guard has not
      fired the loop has found what one parse of the whole stream finds. */
  lemma {:induction false} ReaderIsParse(chunks: seq<seq<Byte>>)
    requires Quiet(chunks)
    ensures ReadAll(OPENED, chunks) == Reading(Parse(Join(chunks)).frames, Leftover(Join(chunks)))
    decreases |chunks|
  {
    assert chunks[..|chunks|] == chunks;
    if chunks != [] {
      var init := chunks[..|chunks| - 1];
      assert forall k :: 0 <= k <= |init| ==> init[..k] == chunks[..k];
      ReaderIsParse(init);
      ReadSnoc(OPENED, init, chunks[|chunks| - 1]);
      assert chunks == init + [chunks[|chunks| - 1]];
      LeftoverChunk(Join(init), chunks[|chunks| - 1]);
    }
  }

  /** The frames of runs of reads, each parsed on its own. */
  function FramesOf(segments: seq<seq<seq<Byte>>>): seq<Frame> {
    if segments == [] then [] else Parse(Join(segments[0])).frames + FramesOf(segments[1..])
  }

  lemma {:induction false} FramesOfConcat(xs: seq<seq<seq<Byte>>>, ys: seq<seq<seq<Byte>>>)
    ensures FramesOf(xs + ys) == FramesOf(xs) + FramesOf(ys)
  {
    if xs == [] {
      assert xs + ys == ys;
    } else {
      assert (xs + ys)[1..] == xs[1..] + ys;
      FramesOfConcat(xs[1..], ys);
    }
  }

  /** The last of these reads is the first to leave more than the guard allows. */
  ghost predicate Fires(chunks: seq<seq<Byte>>) {
    && chunks != [] && |Leftover(Join(chunks))| > MAX_BUFFER_BYTES
    && Quiet(chunks[..|chunks| - 1])
  }

  /** The reads are `done` runs, each ended by the guard, and a `last` one that
      is still going on. */
  ghost predicate SegmentedRead(r: Reading, chunks: seq<seq<Byte>>, done: seq<seq<seq<Byte>>>, last: seq<seq<Byte>>) {
    && chunks == Join(done) + last
    && (forall d <- done :: Fires(d)) && Quiet(last)
    && r == Reading(FramesOf(done) + Parse(Join(last)).frames, Leftover(Join(last)))
  }

  /** For every stream and every cutting, guard or no guard: the reads fall into
      runs, each ended by the first read at which the guard fires, and the loop
      finds exactly what separate parses of the runs find. */
  lemma ReaderSegments(chunks: seq<seq<Byte>>)
    ensures exists done, last :: SegmentedRead(ReadAll(OPENED, chunks), chunks, done, last)
  {
    var done, last := FindSegments(chunks);
  }

  lemma {:induction false} FindSegments(chunks: seq<seq<Byte>>) returns (done: seq<seq<seq<Byte>>>, last: seq<seq<Byte>>)
    ensures SegmentedRead(ReadAll(OPENED, chunks), chunks, done, last)
    decreases |chunks|
  {
    if chunks == [] {
      done, last := [], [];
      NoReads();
    } else {
      var k := |chunks| - 1;
      done, last := FindSegments(chunks[..k]);
      ReadSnoc(OPENED, chunks[..k], chunks[k]);
      assert chunks == chunks[..k] + [chunks[k]];
      done, last := ExtendSegments(ReadAll(OPENED, chunks[..k]), chunks[..k], done, last, chunks[k]);
    }
  }

  lemma NoReads()
    ensures Quiet([])
  {
    var none: seq<seq<Byte>> := [];
    assert none[..0] == [] && Join(none) == [] && |Leftover([])| == 0;
  }

  lemma QuietMore(last: seq<seq<Byte>>, chunk: seq<Byte>)
    requires Quiet(last) && |Leftover(Join(last + [chunk]))| <= MAX_BUFFER_BYTES
    ensures Quiet(last + [chunk])
  {
    var more := last + [chunk];
    forall k | 0 <= k <= |more| ensures |Leftover(Join(more[..k]))| <= MAX_BUFFER_BYTES {
      if k <= |last| {
        assert more[..k] == last[..k];
      } else {
        assert more[..k] == more;
      }
    }
  }

  lemma ExtendSegments(r: Reading, chunks: seq<seq<Byte>>, done: seq<seq<seq<Byte>>>, last: seq<seq<Byte>>, chunk: seq<Byte>)
    returns (done': seq<seq<seq<Byte>>>, last': seq<seq<Byte>>)
    requires SegmentedRead(r, chunks, done, last)
    ensures SegmentedRead(ReadChunk(r, chunk), chunks + [chunk], done', last')
  {
    var more := last + [chunk];
    ReadSnoc(OPENED, last, chunk);
    LeftoverChunk(Join(last), chunk);
    ConcatAssoc(FramesOf(done), Parse(Join(last)).frames, Parse(Leftover(Join(last)) + chunk).frames);
    ConcatAssoc(Join(done), last, [chunk]);
    if |Leftover(Join(more))| <= MAX_BUFFER_BYTES {
      QuietMore(last, chunk);
      done', last' := done, more;
    } else {
      GuardFires(done, last, chunk);
      done', last' := done + [more], [];
    }
  }

  /** The guard ends a run: it joins the finished ones, and a new one begins. */
  lemma GuardFires(done: seq<seq<seq<Byte>>>, last: seq<seq<Byte>>, chunk: seq<Byte>)
    requires (forall d <- done :: Fires(d)) && Quiet(last) && |Leftover(Join(last + [chunk]))| > MAX_BUFFER_BYTES
    ensures var more := last + [chunk];
            && (forall d <- done + [more] :: Fires(d)) && Quiet([])
            && Join(done + [more]) + [] == Join(done) + more
            && FramesOf(done + [more]) + Parse(Join([])).frames == FramesOf(done) + Parse(Join(more)).frames
  {
    var more := last + [chunk];
    assert more[..|more| - 1] == last;
    NoReads();
    JoinConcat(done, [more]);
    JoinOne(more);
    FramesOfConcat(done, [more]);
    assert [more][1..] == [];
    assert FramesOf([more]) == Parse(Join(more)).frames + [];
  }

  /** Dropping a leftover changes nothing, whatever comes next, exactly when the
      scanner was between frames. */
  lemma ResetHarmless(t: seq<Byte>)
    requires Parse(t).frames == []
    ensures (forall rest :: Parse(t + rest).frames == Parse(rest).frames) <==> Parse(t).mode.Hunt?
  {
    var m := Parse(t);
    if m.mode.Hunt? {
      forall rest ensures Parse(t + rest).frames == Parse(rest).frames {
        RunConcat(START, t, rest);
        RunShift(m, rest);
      }
    } else {
      var rest := Completion(m);
      RunConcat(START, t, rest);
      assert Parse(t + rest).frames != Parse(rest).frames;
    }
  }

  function Zeros(n: nat): (s: seq<Byte>)
    ensures |s| == n && forall b <- s :: b == 0
  {
    if n == 0 then [] else [0] + Zeros(n - 1)
  }

  /** Bytes that complete the frame the scanner is in but hold no frame themselves. */
  lemma Completion(m: Scan) returns (rest: seq<Byte>)
    requires !m.mode.Hunt?
    ensures Run(m, rest).frames != m.frames && Parse(rest).frames == []
  {
    match m.mode
    case GotEsc =>
      var zeros := Zeros(9);
      rest := [0x31] + zeros;
      RunConcat(m, [0x31], zeros);
      RunOne(m, 0x31);
      PlainStuff(zeros);
      BodyRun(m.frames, m.consumed, 0x31, [], m.pos + 1, zeros);
      assert |Run(m, rest).frames| == |m.frames| + 1;
      PlainRun(START, rest);
    case Body(t, out) =>
      rest := Zeros(Need(t) - |out|);
      PlainStuff(rest);
      BodyRun(m.frames, m.consumed, t, out, m.pos, rest);
      assert |Run(m, rest).frames| == |m.frames| + 1;
      PlainRun(START, rest);
    case BodyEsc(t, out) =>
      var zeros := Zeros(Need(t) - |out| - 1);
      rest := [ESC] + zeros;
      RunConcat(m, [ESC], zeros);
      RunConcat(START, [ESC], zeros);
      RunOne(m, ESC);
      RunOne(START, ESC);
      var plain := PlainInBody(m.frames, m.consumed, t, out + [ESC], m.pos + 1, zeros);
      assert |Run(m, rest).frames| == |m.frames| + 1;
      if zeros == [] {
      } else {
        assert Run(START, rest) == Run(Step(Step(START, ESC), 0), zeros[1..]);
        PlainRun(Step(Step(START, ESC), 0), zeros[1..]);
      }
  }

  // ---------------------------------------------------------------- the guard stays silent

  lemma {:induction false} EncodeAllConcat(xs: seq<Wire>, ys: seq<Wire>)
    ensures EncodeAll(xs + ys) == EncodeAll(xs) + EncodeAll(ys)
    ensures ParsedAll(xs + ys) == ParsedAll(xs) + ParsedAll(ys)
  {
    if xs == [] {
      assert xs + ys == ys;
    } else {
      assert (xs + ys)[0] == xs[0] && (xs + ys)[1..] == xs[1..] + ys;
      EncodeAllConcat(xs[1..], ys);
    }
  }

  /** A prefix of a run of frames is some whole frames and a strict prefix of the next. */
  ghost predicate CutAt(ws: seq<Wire>, s: seq<Byte>, m: nat, cut: seq<Byte>) {
    && m <= |ws|
    && s == EncodeAll(ws[..m]) + cut
    && if m == |ws| then cut == [] else cut < ws[m].Encode()
  }

  lemma {:induction false} FindCut(ws: seq<Wire>, s: seq<Byte>) returns (m: nat, cut: seq<Byte>)
    requires s <= EncodeAll(ws)
    ensures CutAt(ws, s, m, cut)
    decreases |ws|
  {
    if ws == [] {
      m, cut := 0, [];
    } else {
      var first := ws[0].Encode();
      if |s| < |first| {
        m, cut := 0, s;
        assert ws[..0] == [];
        assert s == EncodeAll(ws)[..|s|] == first[..|s|];
      } else {
        var rest := s[|first|..];
        assert s == first + rest && rest <= EncodeAll(ws[1..]) by {
          PrefixBeyond(first, EncodeAll(ws[1..]), s);
        }
        m, cut := FindCut(ws[1..], rest);
        assert ws[..m + 1] == [ws[0]] + ws[1..][..m];
        assert EncodeAll(ws[..m + 1]) == first + EncodeAll(ws[1..][..m]);
        m := m + 1;
      }
    }
  }

  /** The leftover of bytes `b` and the start of a run of frames is a strict
      prefix of one frame once a whole frame has come by. */
  lemma LeftoverBound(b: seq<Byte>, ws: seq<Wire>, s: seq<Byte>, m: nat, cut: seq<Byte>)
    requires AllValid(ws) && !Parse(b).mode.BodyEsc? && CutAt(ws, s, m, cut)
    ensures m > 0 ==> Leftover(b + s) == cut && Parse(b + s).frames == Parse(b).frames + ParsedAll(ws[..m])
    ensures |cut| < MAX_FRAME && |Leftover(b + s)| <= |b| + |cut|
  {
    assert |cut| < MAX_FRAME by {
      if m < |ws| {
        FrameLength(ws[m]);
      }
    }
    RestartPoint(b + s);
    if m > 0 {
      LeftoverIsCut(b, ws, s, m, cut);
    } else {
      assert ws[..0] == [];
    }
  }

  lemma FrameLength(w: Wire)
    requires w.Valid()
    ensures |w.Encode()| <= MAX_FRAME
  {
    StuffLength(w.header + w.payload);
  }

  /** Reading a cut frame between frames changes nothing that has been found. */
  lemma CutReads(ws: seq<Wire>, m: nat, cut: seq<Byte>, r: Scan)
    requires AllValid(ws) && m <= |ws| && r.mode.Hunt?
    requires if m == |ws| then cut == [] else cut < ws[m].Encode()
    ensures Run(r, cut).frames == r.frames && Run(r, cut).consumed == r.consumed
  {
    if m < |ws| {
      CutFrameRead(r, ws[m], |cut|);
      assert cut == ws[m].Encode()[..|cut|];
    }
  }

  lemma LeftoverIsCut(b: seq<Byte>, ws: seq<Wire>, s: seq<Byte>, m: nat, cut: seq<Byte>)
    requires AllValid(ws) && !Parse(b).mode.BodyEsc? && CutAt(ws, s, m, cut) && m > 0
    ensures Leftover(b + s) == cut && Parse(b + s).frames == Parse(b).frames + ParsedAll(ws[..m])
  {
    var whole := EncodeAll(ws[..m]);
    var r := Run(Parse(b), whole);
    assert r == Scan(Hunt, Parse(b).frames + ParsedAll(ws[..m]), |b + whole|, |b + whole|) by {
      FramesRead(Parse(b), ws[..m]);
      RunShift(START, b);
    }
    assert Parse(b + s) == Run(r, cut) by {
      RunConcat(START, b, s);
      RunConcat(Parse(b), whole, cut);
    }
    CutReads(ws, m, cut, r);
    assert (b + s)[|b + whole|..] == cut by { assert b + s == (b + whole) + cut; }
  }

  /** On whole frames joined at a frame boundary, however they are cut into
      reads, the buffer is always a strict prefix of the frame being received:
      fewer than 44 bytes, so the guard never discards anything. */
  lemma BoundedCarryOver(ws: seq<Wire>, chunks: seq<seq<Byte>>)
    requires AllValid(ws) && Join(chunks) <= EncodeAll(ws)
    ensures var r := ReadAll(OPENED, chunks);
            && |r.buf| < MAX_FRAME
            && exists m: nat :: CutAt(ws, Join(chunks), m, r.buf) && r.frames == ParsedAll(ws[..m])
  {
    forall k | 0 <= k <= |chunks| ensures |Leftover(Join(chunks[..k]))| < MAX_FRAME {
      JoinPrefix(chunks, k);
      var s := Join(chunks[..k]);
      var m, cut := FindCut(ws, s);
      LeftoverBound([], ws, s, m, cut);
      assert [] + s == s;
    }
    ReaderIsParse(chunks);
    var s := Join(chunks);
    var m, cut := FindCut(ws, s);
    LeftoverBound([], ws, s, m, cut);
    assert [] + s == s;
    if m == 0 {
      assert ws[..0] == [] && s == cut;
      if ws != [] {
        CutFrameRead(START, ws[0], |cut|);
        assert cut == ws[0].Encode()[..|cut|];
      }
    }
    assert CutAt(ws, s, m, Leftover(s)) && Parse(s).frames == ParsedAll(ws[..m]);
  }

  lemma JoinPrefix(chunks: seq<seq<Byte>>, k: nat)
    requires k <= |chunks|
    ensures Join(chunks[..k]) <= Join(chunks)
  {
    assert chunks == chunks[..k] + chunks[k..];
    JoinConcat(chunks[..k], chunks[k..]);
  }

  /** Joined anywhere but on half an escape pair inside a frame, with up to a
      megabyte before the first whole frame: every frame after it is found once,
      in order, however the stream is cut into reads. */
  lemma JoinInStep(b: seq<Byte>, ws: seq<Wire>, chunks: seq<seq<Byte>>)
    requires AllValid(ws) && !Parse(b).mode.BodyEsc? && |b| + MAX_FRAME <= MAX_BUFFER_BYTES
    requires Join(chunks) == b + EncodeAll(ws)
    ensures ReadAll(OPENED, chunks).frames == Parse(b).frames + ParsedAll(ws)
  {
    forall k | 0 <= k <= |chunks| ensures |Leftover(Join(chunks[..k]))| <= MAX_BUFFER_BYTES {
      JoinPrefix(chunks, k);
      var s := Join(chunks[..k]);
      RestartPoint(s);
      if |s| > |b| {
        var rest := s[|b|..];
        PrefixBeyond(b, EncodeAll(ws), s);
        var m, cut := FindCut(ws, rest);
        LeftoverBound(b, ws, rest, m, cut);
      }
    }
    ReaderIsParse(chunks);
    ResyncExactly(b);
  }

  /** Joined anywhere at all: every frame from the second whole one on is found
      once, in order, however the stream is cut into reads. */
  lemma JoinAnywhere(b: seq<Byte>, ws: seq<Wire>, chunks: seq<seq<Byte>>)
    requires AllValid(ws) && ws != [] && |b| + 2 * MAX_FRAME <= MAX_BUFFER_BYTES
    requires Join(chunks) == b + EncodeAll(ws)
    ensures ReadAll(OPENED, chunks).frames == Parse(b + ws[0].Encode()).frames + ParsedAll(ws[1..])
  {
    var first := ws[0].Encode();
    FrameLength(ws[0]);
    FrameEndsWhole(Parse(b), ws[0]);
    RunConcat(START, b, first);
    ConcatAssoc(b, first, EncodeAll(ws[1..]));
    JoinInStep(b + first, ws[1..], chunks);
  }

  /** Joined inside a frame of any type, even inside an escape pair: every frame
      after it is found once, in order, however the stream is cut into reads. */
  lemma JoinMidStream(t: Byte, body: seq<Byte>, k: nat, ws: seq<Wire>, chunks: seq<seq<Byte>>)
    requires t != ESC && 0 < k <= 2 + |Stuff(body)| && |Stuff(body)| + 2 + MAX_FRAME <= MAX_BUFFER_BYTES
    requires AllValid(ws) && Join(chunks) == ([ESC, t] + Stuff(body))[k..] + EncodeAll(ws)
    ensures ReadAll(OPENED, chunks).frames == Parse(([ESC, t] + Stuff(body))[k..]).frames + ParsedAll(ws)
  {
    var b := ([ESC, t] + Stuff(body))[k..];
    JoinMidFrame(t, body, k);
    ResyncExactly(b);
    JoinInStep(b, ws, chunks);
  }
}
