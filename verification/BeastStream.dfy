/** What the scanner guarantees about whole Beast streams: chunking, soundness,
    round trips, and exactly when it finds its way back after a break. */
module BeastStream {
  import opened Bytes
  import opened Beast

  // ---------------------------------------------------------------- chunks

  /** At the last byte consumed the scanner holds nothing but its finished frames. */
  lemma {:induction false} RestartPoint(s: seq<Byte>)
    ensures var r := Parse(s);
            && r.pos == |s| && r.consumed <= |s|
            && Run(START, s[..r.consumed]) == Scan(Hunt, r.frames, r.consumed, r.consumed)
    decreases |s|
  {
    if s == [] {
      assert s[..0] == [];
    } else {
      var k := |s| - 1;
      RunSnoc(START, s, k);
      assert s[..k + 1] == s;
      RestartPoint(s[..k]);
      var c := Parse(s[..k]).consumed;
      assert s[..k][..c] == s[..c];
      assert s[..|s|] == s;
    }
  }

  /** Parsing a chunk, dropping what it consumed and carrying the rest into the
      next chunk finds the same frames at the same places as parsing it all. */
  lemma ChunkInvariance(a: seq<Byte>, b: seq<Byte>)
    ensures var p, whole := Parse(a), Parse(a + b);
            p.consumed <= |a| &&
            var next := Parse(a[p.consumed..] + b);
            && whole.frames == p.frames + next.frames
            && whole.consumed == p.consumed + next.consumed
            && whole.mode == next.mode
  {
    RestartPoint(a);
    var p := Parse(a);
    var c := p.consumed;
    var rest := a[c..] + b;
    assert a + b == a[..c] + rest;
    RunConcat(START, a[..c], rest);
    RunShift(Run(START, a[..c]), rest);
    NoFrameNoneConsumed(rest);
  }

  lemma NoFrameNoneConsumed(s: seq<Byte>)
    ensures Parse(s).frames == [] <==> Parse(s).consumed == 0
  {
    if Parse(s).frames == [] {
      NeverConsumed(s);
    } else {
      RestartPoint(s);
      assert s[..0] == [];
    }
  }

  lemma {:induction false} NeverConsumed(s: seq<Byte>)
    requires Parse(s).frames == []
    ensures Parse(s).consumed == 0
    decreases |s|
  {
    if s != [] {
      RunSnoc(START, s, |s| - 1);
      assert s[..|s| - 1 + 1] == s;
      NeverConsumed(s[..|s| - 1]);
    }
  }

  // ---------------------------------------------------------------- soundness

  datatype Span = Span(lo: nat, hi: nat)

  /** s[lo..hi] is the whole encoding of a frame that parses to f. */
  ghost predicate FrameAt(s: seq<Byte>, at: Span, f: Frame) {
    && at.lo <= at.hi <= |s|
    && exists w: Wire :: w.Valid() && w.Parsed() == f && s[at.lo..at.hi] == w.Encode()
  }

  /** The frames come from disjoint segments of s, in order, the last one
      ending at `consumed`. */
  ghost predicate Segmented(s: seq<Byte>, frames: seq<Frame>, consumed: nat, spans: seq<Span>) {
    && |spans| == |frames|
    && (forall k :: 0 <= k < |spans| ==> FrameAt(s, spans[k], frames[k]))
    && (forall j, k :: 0 <= j < k < |spans| ==> spans[j].hi <= spans[k].lo)
    && consumed == if spans == [] then 0 else spans[|spans| - 1].hi
  }

  /** Every frame reported is really there. */
  lemma Soundness(s: seq<Byte>)
    ensures exists spans :: Segmented(s, Parse(s).frames, Parse(s).consumed, spans)
  {
    assert s[..|s|] == s;
    var spans, lo := Trace(s, |s|);
    assert Segmented(s, Parse(s).frames, Parse(s).consumed, spans);
  }

  /** s[lo..k] is the part read so far of the frame the scanner is in. */
  ghost predicate Pending(s: seq<Byte>, k: nat, r: Scan, lo: nat) {
    && r.consumed <= k <= |s|
    && match r.mode
       case Hunt => true
       case GotEsc => r.consumed < k && s[k - 1] == ESC
       case Body(t, out) => r.consumed <= lo <= k && s[lo..k] == [ESC, t] + Stuff(out)
       case BodyEsc(t, out) => r.consumed <= lo <= k && s[lo..k] == [ESC, t] + Stuff(out) + [ESC]
  }

  lemma {:induction false} Trace(s: seq<Byte>, k: nat) returns (spans: seq<Span>, lo: nat)
    requires k <= |s|
    ensures var r := Run(START, s[..k]);
            Segmented(s, r.frames, r.consumed, spans) && Pending(s, k, r, lo)
  {
    if k == 0 {
      spans, lo := [], 0;
      assert s[..0] == [];
    } else {
      spans, lo := Trace(s, k - 1);
      var m := Run(START, s[..k - 1]);
      assert m.pos == k - 1 by { RunShift(START, s[..k - 1]); }
      assert Run(START, s[..k]) == Step(m, s[k - 1]) by { RunSnoc(START, s, k - 1); }
      spans, lo := TraceStep(s, k, m, spans, lo);
    }
  }

  lemma TraceStep(s: seq<Byte>, k: nat, m: Scan, spans: seq<Span>, lo: nat) returns (spans': seq<Span>, lo': nat)
    requires 0 < k <= |s| && m.pos == k - 1
    requires Segmented(s, m.frames, m.consumed, spans) && Pending(s, k - 1, m, lo)
    ensures var r := Step(m, s[k - 1]);
            Segmented(s, r.frames, r.consumed, spans') && Pending(s, k, r, lo')
  {
    spans', lo' := spans, lo;
    var b := s[k - 1];
    match m.mode
    case Hunt =>
    case GotEsc => lo' := Opened(s, k, m);
    case Body(t, out) =>
      assert s[lo..k] == s[lo..k - 1] + [b];
      if b != ESC {
        spans' := Grown(s, k, m, spans, lo, t, out, b);
      }
    case BodyEsc(t, out) =>
      if b == ESC {
        assert s[lo..k] == s[lo..k - 1] + [b] == [ESC, t] + Stuff(out) + [ESC, ESC];
        spans' := Grown(s, k, m, spans, lo, t, out, b);
      } else {
        EndsInEscape(s, lo, k - 1, [ESC, t] + Stuff(out));
        lo' := Opened(s, k, m);
      }
  }

  lemma EndsInEscape(s: seq<Byte>, lo: nat, k: nat, before: seq<Byte>)
    requires lo <= k <= |s| && s[lo..k] == before + [ESC]
    ensures lo < k && s[k - 1] == ESC
  {
    assert s[lo..k][k - 1 - lo] == s[k - 1];
  }

  lemma Opened(s: seq<Byte>, k: nat, m: Scan) returns (lo: nat)
    requires 2 <= k <= |s| && m.consumed <= k - 2 && s[k - 2] == ESC
    ensures Pending(s, k, AfterEsc(m, s[k - 1]), lo)
  {
    lo := k - 2;
    assert s[lo..k] == [ESC, s[k - 1]] + Stuff([]);
  }

  /** One more body byte, as it stands in the stream, keeps the segmentation. */
  lemma Grown(s: seq<Byte>, k: nat, m: Scan, spans: seq<Span>, lo: nat, t: Byte, out: seq<Byte>, b: Byte)
    returns (spans': seq<Span>)
    requires k <= |s| && m.consumed <= lo <= k && Known(t) && |out| < Need(t)
    requires Segmented(s, m.frames, m.consumed, spans)
    requires s[lo..k] == [ESC, t] + Stuff(out) + (if b == ESC then [ESC, ESC] else [b])
    ensures var r := Settle(m.frames, m.consumed, t, out + [b], k);
            Segmented(s, r.frames, r.consumed, spans') && Pending(s, k, r, lo)
  {
    var out' := out + [b];
    assert s[lo..k] == [ESC, t] + Stuff(out') by { StuffSnoc(out, b); }
    spans' := spans;
    if |out'| == Need(t) {
      Completed(s, k, lo, t, out');
      spans' := spans + [Span(lo, k)];
    }
  }

  lemma StuffSnoc(out: seq<Byte>, b: Byte)
    ensures Stuff(out + [b]) == Stuff(out) + (if b == ESC then [ESC, ESC] else [b])
  {
    StuffConcat(out, [b]);
    assert [b][1..] == [];
    assert Stuff([b]) == (if b == ESC then [ESC, ESC] else [b]) + [];
  }

  lemma Completed(s: seq<Byte>, k: nat, lo: nat, t: Byte, out: seq<Byte>)
    requires lo <= k <= |s| && Known(t) && |out| == Need(t) && s[lo..k] == [ESC, t] + Stuff(out)
    ensures FrameAt(s, Span(lo, k), Frame(t, out[HEADER_LEN..]))
  {
    var w := Wire(t, out[..HEADER_LEN], out[HEADER_LEN..]);
    assert w.header + w.payload == out;
    assert w.Valid() && w.Parsed() == Frame(t, out[HEADER_LEN..]);
  }

  /** A parsed payload has exactly the length its type calls for. */
  lemma ParsedShape(s: seq<Byte>)
    ensures forall f <- Parse(s).frames :: Known(f.ftype) && |f.payload| == PayloadLen(f.ftype).value
  {
    Soundness(s);
    var spans :| Segmented(s, Parse(s).frames, Parse(s).consumed, spans);
    forall f | f in Parse(s).frames
      ensures Known(f.ftype) && |f.payload| == PayloadLen(f.ftype).value
    {
      var k :| 0 <= k < |Parse(s).frames| && Parse(s).frames[k] == f;
      assert FrameAt(s, spans[k], f);
    }
  }

  // ---------------------------------------------------------------- round trip

  /** Whole frames and the start of one more: all the whole frames, and exactly
      the start left over. */
  lemma RoundTripWithTail(ws: seq<Wire>, w: Wire, k: nat)
    requires AllValid(ws) && w.Valid() && k < |w.Encode()|
    ensures var r := Parse(EncodeAll(ws) + w.Encode()[..k]);
            r.frames == ParsedAll(ws) && r.consumed == |EncodeAll(ws)|
  {
    var s, tail := EncodeAll(ws), w.Encode()[..k];
    RunConcat(START, s, tail);
    if ws != [] {
      FramesRead(START, ws);
    }
    CutFrameRead(Run(START, s), w, k);
  }

  // ---------------------------------------------------------------- resynchronisation

  /** Whatever whole frames follow b, all of them are found, and nothing else
      beyond what b itself holds. */
  ghost predicate Resyncs(b: seq<Byte>) {
    forall ws :: AllValid(ws) ==> Parse(b + EncodeAll(ws)).frames == Parse(b).frames + ParsedAll(ws)
  }

  /** After any bytes at all the stream is back in step at the next frame
      exactly when the bytes do not end on half an escape pair inside a frame. */
  lemma ResyncExactly(b: seq<Byte>)
    ensures Resyncs(b) <==> !Parse(b).mode.BodyEsc?
  {
    if Parse(b).mode.BodyEsc? {
      ProbeText();
      LostFrame(Parse(b), PROBE, PROBE_TAIL);
      LosingOne(b, PROBE);
    } else {
      forall ws | AllValid(ws)
        ensures Parse(b + EncodeAll(ws)).frames == Parse(b).frames + ParsedAll(ws)
      {
        RunConcat(START, b, EncodeAll(ws));
        if ws != [] {
          FramesRead(Parse(b), ws);
        }
      }
    }
  }

  lemma LosingOne(b: seq<Byte>, w: Wire)
    requires w.Valid() && Run(Parse(b), w.Encode()).frames != Parse(b).frames + [w.Parsed()]
    ensures !Resyncs(b)
  {
    var ws := [w];
    assert EncodeAll(ws) == w.Encode() by { assert EncodeAll(ws[1..]) == []; }
    assert ParsedAll(ws) == [w.Parsed()] by { assert ParsedAll(ws[1..]) == []; }
    RunConcat(START, b, EncodeAll(ws));
    assert AllValid(ws) && Parse(b + EncodeAll(ws)).frames != Parse(b).frames + ParsedAll(ws);
  }

  const PROBE: Wire := Wire(0x31, [0, 0, 0, 0, 0, 0, 0], [1, 2])
  const PROBE_TAIL: seq<Byte> := [0x31, 0, 0, 0, 0, 0, 0, 0, 1, 2]

  /** Text without escape bytes never completes anything outside a frame. */
  lemma {:induction false} PlainRun(m: Scan, s: seq<Byte>)
    requires m.mode.Hunt? && ESC !in s
    ensures Run(m, s) == m.(pos := m.pos + |s|)
    decreases |s|
  {
    if s != [] {
      PlainRun(Step(m, s[0]), s[1..]);
    }
  }

  lemma {:induction false} PlainStuff(s: seq<Byte>)
    requires ESC !in s
    ensures Stuff(s) == s
  {
    if s != [] {
      PlainStuff(s[1..]);
    }
  }

  lemma ProbeText()
    ensures PROBE.Valid() && PROBE.Encode() == [ESC] + PROBE_TAIL && ESC !in PROBE_TAIL
  {
    PlainStuff(PROBE.header + PROBE.payload);
  }

  /** From half an escape pair, a frame whose own start is taken for the other
      half is not found. */
  lemma LostFrame(m: Scan, w: Wire, tail: seq<Byte>)
    requires m.mode.BodyEsc? && w.Valid() && w.ftype == 0x31
    requires w.Encode() == [ESC] + tail && ESC !in tail
    requires w.payload[1] != ESC && w.payload[1] !in tail[..|tail| - 1]
    ensures Run(m, w.Encode()).frames != m.frames + [w.Parsed()]
  {
    var t, out := m.mode.ftype, m.mode.out + [ESC];
    RunConcat(m, [ESC], tail);
    RunOne(m, ESC);
    var plain := PlainInBody(m.frames, m.consumed, t, out, m.pos + 1, tail);
    if |out + plain| == Need(t) {
      var f := Frame(t, (out + plain)[HEADER_LEN..]);
      if t == 0x31 {
        assert |plain| < |tail| by { StuffLength(w.header + w.payload); }
        assert f.payload[1] == if plain == [] then out[|out| - 1] else tail[..|tail| - 1][|plain| - 1];
      }
      assert (m.frames + [f])[|m.frames|] != (m.frames + [w.Parsed()])[|m.frames|];
    }
  }

  lemma {:induction false} StuffLength(x: seq<Byte>)
    ensures |x| <= |Stuff(x)| <= 2 * |x|
  {
    if x != [] {
      StuffLength(x[1..]);
    }
  }

  /** Text without escape bytes completes the frame being read, if it is long
      enough, with its first bytes; what is left of it completes nothing. */
  lemma PlainInBody(frames: seq<Frame>, c: nat, t: Byte, out: seq<Byte>, p: nat, s: seq<Byte>)
    returns (plain: seq<Byte>)
    requires Known(t) && |out| <= Need(t) && ESC !in s
    ensures plain <= s && |out + plain| <= Need(t) && (plain == s || |out + plain| == Need(t))
    ensures Run(Settle(frames, c, t, out, p), s).frames
         == if |out + plain| < Need(t) then frames else frames + [Frame(t, (out + plain)[HEADER_LEN..])]
  {
    var n := if Need(t) - |out| < |s| then Need(t) - |out| else |s|;
    var rest := s[n..];
    plain := s[..n];
    assert s == plain + rest;
    var m1 := Settle(frames, c, t, out, p);
    RunConcat(m1, plain, rest);
    var m2 := Settle(frames, c, t, out + plain, p + n);
    assert Run(m1, plain) == m2 by {
      if n == 0 {
        assert out + plain == out;
      } else {
        PlainStuff(plain);
        BodyRun(frames, c, t, out, p, plain);
      }
    }
    if |out + plain| < Need(t) {
      assert rest == [];
    } else {
      PlainRun(m2, rest);
    }
  }

  /** Stuffed text leaves no half pair behind. */
  lemma {:induction false} StuffEndsWhole(m: Scan, x: seq<Byte>)
    requires !m.mode.BodyEsc?
    ensures !Run(m, Stuff(x)).mode.BodyEsc?
    decreases |x|
  {
    if x != [] {
      if x[0] == ESC {
        RunConcat(m, [ESC, ESC], Stuff(x[1..]));
        RunTwo(m, ESC, ESC);
        StuffEndsWhole(Run(m, [ESC, ESC]), x[1..]);
      } else {
        RunConcat(m, [x[0]], Stuff(x[1..]));
        RunOne(m, x[0]);
        StuffEndsWhole(Run(m, [x[0]]), x[1..]);
      }
    }
  }

  /** However the stream was broken, only the first frame after the break can
      be lost or misread. */
  lemma LosesAtMostOne(b: seq<Byte>, ws: seq<Wire>)
    requires AllValid(ws) && ws != []
    ensures Parse(b + EncodeAll(ws)).frames == Parse(b + ws[0].Encode()).frames + ParsedAll(ws[1..])
  {
    var first, rest := ws[0].Encode(), EncodeAll(ws[1..]);
    assert b + EncodeAll(ws) == (b + first) + rest;
    RunConcat(START, b, first);
    RunConcat(START, b + first, rest);
    FrameEndsWhole(Parse(b), ws[0]);
    if |ws| > 1 {
      FramesRead(Parse(b + first), ws[1..]);
    } else {
      assert rest == [] && ParsedAll(ws[1..]) == [];
    }
  }

  lemma FrameEndsWhole(m: Scan, w: Wire)
    requires w.Valid()
    ensures !Run(m, w.Encode()).mode.BodyEsc?
  {
    var x := w.header + w.payload;
    RunConcat(m, [ESC, w.ftype], Stuff(x));
    RunTwo(m, ESC, w.ftype);
    StuffEndsWhole(Run(m, [ESC, w.ftype]), x);
  }

  /** Joining the stream inside a frame of any type, known or not, even inside
      an escape pair: everything that follows is found. */
  lemma JoinMidFrame(t: Byte, body: seq<Byte>, k: nat)
    requires t != ESC && 0 < k <= 2 + |Stuff(body)|
    ensures Resyncs(([ESC, t] + Stuff(body))[k..])
  {
    var e := [ESC, t] + Stuff(body);
    if k == 1 {
      assert e[1..] == [t] + Stuff(body);
      RunConcat(START, [t], Stuff(body));
      RunOne(START, t);
      StuffEndsWhole(Step(START, t), body);
    } else {
      var i, half := StuffSuffix(body, k - 2);
      assert e[k..] == Stuff(body)[k - 2..];
      var front: seq<Byte> := if half then [ESC] else [];
      RunConcat(START, front, Stuff(body[i..]));
      RunOne(START, ESC);
      StuffEndsWhole(Run(START, front), body[i..]);
    }
    ResyncExactly(e[k..]);
  }

  /** A whole frame of any type, of any length, is passed over without loss. */
  lemma PassUnknownFrame(t: Byte, body: seq<Byte>)
    requires t != ESC
    ensures Resyncs([ESC, t] + Stuff(body))
  {
    RunConcat(START, [ESC, t], Stuff(body));
    RunTwo(START, ESC, t);
    StuffEndsWhole(Run(START, [ESC, t]), body);
    ResyncExactly([ESC, t] + Stuff(body));
  }

  /** A frame cut short is abandoned, and the whole frames after it are exactly
      what is found, if and only if the cut is not inside an escape pair. */
  lemma TruncatedThenWhole(w: Wire, k: nat)
    requires w.Valid() && k < |w.Encode()|
    ensures (forall ws :: AllValid(ws) ==> Parse(w.Encode()[..k] + EncodeAll(ws)).frames == ParsedAll(ws))
            <==> !EndsInPair(w, k)
  {
    var cut := w.Encode()[..k];
    CutFrameRead(START, w, k);
    ResyncExactly(cut);
    assert forall ws :: [] + ParsedAll(ws) == ParsedAll(ws);
  }

  /** A frame for which the cut matters: after its third byte, half an escape
      pair. The next frame's start is taken for the other half, and what is found
      instead of that frame is none of the frames sent. */
  const SPLIT: Wire := Wire(0x31, [ESC, 0, 0, 0, 0, 0, 0], [3, 4])

  lemma CutInPairMisreads()
    ensures SPLIT.Valid() && PROBE.Valid() && EndsInPair(SPLIT, 3)
    ensures Parse(SPLIT.Encode()[..3] + PROBE.Encode()).frames == [Frame(0x31, [0, 0])]
    ensures PROBE.Parsed() == Frame(0x31, [1, 2])
  {
    SplitText();
    ProbeText();
    RunConcat(START, SPLIT.Encode()[..3], PROBE.Encode());
    var m := HalfPair();
    Misread(m, PROBE_TAIL);
  }

  lemma HalfPair() returns (m: Scan)
    ensures m == Run(START, [ESC, 0x31, ESC]) == Scan(BodyEsc(0x31, []), [], 3, 0)
  {
    m := Run(START, [ESC, 0x31, ESC]);
    var start, last: seq<Byte> := [ESC, 0x31], [ESC];
    assert [ESC, 0x31, ESC] == start + last;
    RunConcat(START, start, last);
    RunTwo(START, ESC, 0x31);
    RunOne(Run(START, start), ESC);
  }

  lemma Misread(m: Scan, tail: seq<Byte>)
    requires m == Scan(BodyEsc(0x31, []), [], 3, 0) && tail == PROBE_TAIL && ESC !in tail
    ensures Run(m, [ESC] + tail).frames == [Frame(0x31, [0, 0])]
  {
    RunConcat(m, [ESC], tail);
    RunOne(m, ESC);
    assert Step(m, ESC) == Settle([], 0, 0x31, [ESC], 4) by { assert [] + [ESC] == [ESC]; }
    var plain := PlainInBody([], 0, 0x31, [ESC], 4, tail);
    EightTaken([ESC] + plain, plain, tail);
  }

  lemma EightTaken(out: seq<Byte>, plain: seq<Byte>, tail: seq<Byte>)
    requires tail == PROBE_TAIL && plain <= tail && out == [ESC] + plain
    requires |out| <= 9 && (plain == tail || |out| == 9)
    ensures |out| == 9 && out[HEADER_LEN..] == [0, 0]
  {
    assert |tail| == 10;
    assert out[7] == plain[6] == tail[6] == 0 && out[8] == plain[7] == tail[7] == 0;
  }

  lemma SplitText()
    ensures SPLIT.Encode()[..3] == [ESC, 0x31, ESC]
  {
    var x := SPLIT.header + SPLIT.payload;
    assert x[0] == ESC && Stuff(x) == [ESC, ESC] + Stuff(x[1..]);
  }
}
