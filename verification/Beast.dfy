/** The Beast wire format (aviation_feeder_mqtt/beast.py) and a byte-at-a-time
    scanner for it.

    The scanner is the reference meaning of a Beast stream: it reads each byte
    once, never looks ahead and never goes back. The program itself does none of
    that: it re-scans a buffer with two nested loops (BeastParser.dfy). */
module Beast {
  import opened Bytes

  const ESC: Byte := 0x1A
  const HEADER_LEN: nat := 7 // MLAT timestamp (6) + signal level (1)

  /** Payload length of each frame type the program knows. */
  function PayloadLen(t: Byte): Option<nat> {
    if t == 0x31 then Some(2)
    else if t == 0x32 then Some(7)
    else if t == 0x33 then Some(14)
    else None
  }

  predicate Known(t: Byte) {
    PayloadLen(t).Some?
  }

  /** Bytes between the type byte and the end of the frame, before stuffing. */
  function Need(t: Byte): nat
    requires Known(t)
  {
    HEADER_LEN + PayloadLen(t).value
  }

  datatype Frame = Frame(ftype: Byte, payload: seq<Byte>)

  // ---------------------------------------------------------------- encoder

  /** Doubles every escape byte. */
  function Stuff(s: seq<Byte>): seq<Byte> {
    if s == [] then []
    else (if s[0] == ESC then [ESC, ESC] else [s[0]]) + Stuff(s[1..])
  }

  /** A frame as a receiver sends it: what is parsed out of it, and the header
      (timestamp and signal) the program discards. */
  datatype Wire = Wire(ftype: Byte, header: seq<Byte>, payload: seq<Byte>) {
    predicate Valid() {
      Known(ftype) && |header| == HEADER_LEN && |payload| == PayloadLen(ftype).value
    }

    function Parsed(): Frame {
      Frame(ftype, payload)
    }

    function Encode(): seq<Byte> {
      [ESC, ftype] + Stuff(header + payload)
    }
  }

  /** The three frame types and their sizes, with a six-byte timestamp and a signal
      byte before the payload. */
  lemma WireShape(w: Wire)
    ensures w.Valid() <==>
      |w.header| == 7
      && ((w.ftype == 0x31 && |w.payload| == 2) || (w.ftype == 0x32 && |w.payload| == 7) || (w.ftype == 0x33 && |w.payload| == 14))
  {
  }

  ghost predicate AllValid(ws: seq<Wire>) {
    forall w <- ws :: w.Valid()
  }

  function EncodeAll(ws: seq<Wire>): seq<Byte> {
    if ws == [] then [] else ws[0].Encode() + EncodeAll(ws[1..])
  }

  function ParsedAll(ws: seq<Wire>): seq<Frame> {
    if ws == [] then [] else [ws[0].Parsed()] + ParsedAll(ws[1..])
  }

  // ---------------------------------------------------------------- scanner

  /** Hunt: between frames. GotEsc: just after an escape byte that may start a
      frame. Body: inside a frame. BodyEsc: inside a frame, after the first
      byte of what may be an escape pair. */
  datatype RawMode =
    | Hunt
    | GotEsc
    | Body(ftype: Byte, out: seq<Byte>)
    | BodyEsc(ftype: Byte, out: seq<Byte>)
  {
    predicate Valid() {
      (Body? || BodyEsc?) ==> Known(ftype) && |out| < Need(ftype)
    }
  }

  type Mode = m: RawMode | m.Valid() witness Hunt

  /** Scanner state: mode, frames completed, bytes read, and the position just
      after the last completed frame. */
  datatype Scan = Scan(mode: Mode, frames: seq<Frame>, pos: nat, consumed: nat)

  const START: Scan := Scan(Hunt, [], 0, 0)

  /** The state at position `pos` once a frame's bytes so far are `out`. */
  function Settle(frames: seq<Frame>, consumed: nat, t: Byte, out: seq<Byte>, pos: nat): Scan
    requires Known(t) && |out| <= Need(t)
  {
    if |out| < Need(t) then Scan(Body(t, out), frames, pos, consumed)
    else Scan(Hunt, frames + [Frame(t, out[HEADER_LEN..])], pos, pos)
  }

  function AfterEsc(m: Scan, b: Byte): Scan {
    m.(mode := if Known(b) then Body(b, []) else if b == ESC then GotEsc else Hunt,
       pos := m.pos + 1)
  }

  function Step(m: Scan, b: Byte): Scan {
    match m.mode
    case Hunt => m.(mode := if b == ESC then GotEsc else Hunt, pos := m.pos + 1)
    case GotEsc => AfterEsc(m, b)
    case Body(t, out) =>
      if b == ESC then m.(mode := BodyEsc(t, out), pos := m.pos + 1)
      else Settle(m.frames, m.consumed, t, out + [b], m.pos + 1)
    case BodyEsc(t, out) =>
      if b == ESC then Settle(m.frames, m.consumed, t, out + [ESC], m.pos + 1)
      else AfterEsc(m, b)
  }

  function Run(m: Scan, s: seq<Byte>): Scan
    decreases |s|
  {
    if s == [] then m else Run(Step(m, s[0]), s[1..])
  }

  /** What a byte stream means. */
  function Parse(s: seq<Byte>): Scan {
    Run(START, s)
  }

  // ---------------------------------------------------------------- the scanner composes

  lemma {:induction false} RunConcat(m: Scan, a: seq<Byte>, b: seq<Byte>)
    ensures Run(m, a + b) == Run(Run(m, a), b)
    decreases |a|
  {
    if a == [] {
      assert a + b == b;
    } else {
      assert (a + b)[1..] == a[1..] + b;
      RunConcat(Step(m, a[0]), a[1..], b);
    }
  }

  lemma RunOne(m: Scan, a: Byte)
    ensures Run(m, [a]) == Step(m, a)
  {
    assert [a][1..] == [];
  }

  lemma RunTwo(m: Scan, a: Byte, b: Byte)
    ensures Run(m, [a, b]) == Step(Step(m, a), b)
  {
    assert [a, b] == [a] + [b];
    RunConcat(m, [a], [b]);
    RunOne(m, a);
    RunOne(Step(m, a), b);
  }

  lemma RunSnoc(m: Scan, s: seq<Byte>, k: nat)
    requires k < |s|
    ensures Run(m, s[..k + 1]) == Step(Run(m, s[..k]), s[k])
  {
    assert s[..k + 1] == s[..k] + [s[k]];
    RunConcat(m, s[..k], [s[k]]);
    RunOne(Run(m, s[..k]), s[k]);
  }

  /** m is z with earlier reading put in front. */
  ghost predicate Shifted(z: Scan, m: Scan, frames: seq<Frame>, pos: nat, consumed: nat) {
    && m.mode == z.mode
    && m.frames == frames + z.frames
    && m.pos == pos + z.pos
    && m.consumed == (if z.frames == [] then consumed else pos + z.consumed)
  }

  lemma StepShift(z: Scan, m: Scan, frames: seq<Frame>, pos: nat, consumed: nat, b: Byte)
    requires Shifted(z, m, frames, pos, consumed)
    ensures Shifted(Step(z, b), Step(m, b), frames, pos, consumed)
  {
  }

  lemma {:induction false} RunShifted(z: Scan, m: Scan, frames: seq<Frame>, pos: nat, consumed: nat, s: seq<Byte>)
    requires Shifted(z, m, frames, pos, consumed)
    ensures Shifted(Run(z, s), Run(m, s), frames, pos, consumed)
    ensures Run(m, s).pos == m.pos + |s|
    decreases |s|
  {
    if s != [] {
      StepShift(z, m, frames, pos, consumed, s[0]);
      RunShifted(Step(z, s[0]), Step(m, s[0]), frames, pos, consumed, s[1..]);
    }
  }

  /** What was read before a point only shifts what is read after it. */
  lemma RunShift(m: Scan, s: seq<Byte>)
    ensures Shifted(Run(Scan(m.mode, [], 0, 0), s), Run(m, s), m.frames, m.pos, m.consumed)
    ensures Run(m, s).pos == m.pos + |s|
  {
    RunShifted(Scan(m.mode, [], 0, 0), m, m.frames, m.pos, m.consumed, s);
  }

  // ---------------------------------------------------------------- stuffed text

  lemma {:induction false} StuffConcat(x: seq<Byte>, y: seq<Byte>)
    ensures Stuff(x + y) == Stuff(x) + Stuff(y)
  {
    if x == [] {
      assert x + y == y;
    } else {
      assert (x + y)[1..] == x[1..] + y;
      StuffConcat(x[1..], y);
    }
  }

  /** A prefix of stuffed text is stuffed text, or stuffed text and half a pair. */
  lemma {:induction false} StuffPrefix(x: seq<Byte>, k: nat) returns (i: nat, half: bool)
    requires k <= |Stuff(x)|
    ensures i <= |x| && (half ==> i < |x| && x[i] == ESC)
    ensures Stuff(x)[..k] == Stuff(x[..i]) + (if half then [ESC] else [])
    ensures k < |Stuff(x)| ==> i < |x|
    ensures k == |Stuff(x[..i])| + (if half then 1 else 0)
    decreases |x|
  {
    if k == 0 {
      i, half := 0, false;
    } else if x[0] == ESC && k == 1 {
      i, half := 0, true;
    } else {
      var step := if x[0] == ESC then 2 else 1;
      i, half := StuffPrefix(x[1..], k - step);
      assert Stuff(x)[..k] == Stuff(x)[..step] + Stuff(x[1..])[..k - step];
      assert x[..i + 1] == [x[0]] + x[1..][..i];
      i := i + 1;
    }
  }

  /** A suffix of stuffed text is stuffed text, perhaps after half a pair. */
  lemma {:induction false} StuffSuffix(x: seq<Byte>, k: nat) returns (i: nat, half: bool)
    requires k <= |Stuff(x)|
    ensures i <= |x|
    ensures Stuff(x)[k..] == (if half then [ESC] else []) + Stuff(x[i..])
    decreases |x|
  {
    if k == 0 {
      i, half := 0, false;
    } else if x[0] == ESC && k == 1 {
      i, half := 1, true;
    } else {
      var step := if x[0] == ESC then 2 else 1;
      i, half := StuffSuffix(x[1..], k - step);
      assert Stuff(x)[k..] == Stuff(x[1..])[k - step..];
      assert x[i + 1..] == x[1..][i..];
      i := i + 1;
    }
  }

  /** Inside a frame, stuffed text contributes exactly the bytes it stands for. */
  lemma {:induction false} BodyRun(frames: seq<Frame>, c: nat, t: Byte, out: seq<Byte>, p: nat, x: seq<Byte>)
    requires Known(t) && |out| < Need(t) && |out| + |x| <= Need(t)
    ensures Run(Scan(Body(t, out), frames, p, c), Stuff(x)) == Settle(frames, c, t, out + x, p + |Stuff(x)|)
    decreases |x|
  {
    var m := Scan(Body(t, out), frames, p, c);
    if x == [] {
      assert out + x == out;
    } else {
      var head := if x[0] == ESC then [ESC, ESC] else [x[0]];
      var out' := out + [x[0]];
      RunConcat(m, head, Stuff(x[1..]));
      BodyByte(frames, c, t, out, p, x[0]);
      assert out + x == out' + x[1..];
      if x[1..] == [] {
        assert out' + x[1..] == out';
      } else {
        BodyRun(frames, c, t, out', p + |head|, x[1..]);
      }
    }
  }

  /** Inside a frame, a byte as it is sent contributes that byte. */
  lemma BodyByte(frames: seq<Frame>, c: nat, t: Byte, out: seq<Byte>, p: nat, b: Byte)
    requires Known(t) && |out| < Need(t)
    ensures var sent := if b == ESC then [ESC, ESC] else [b];
            Run(Scan(Body(t, out), frames, p, c), sent) == Settle(frames, c, t, out + [b], p + |sent|)
  {
    var m := Scan(Body(t, out), frames, p, c);
    if b == ESC {
      RunTwo(m, ESC, ESC);
    } else {
      RunOne(m, b);
    }
  }

  /** Outside a half-read escape pair, the two bytes that open a frame do open one. */
  lemma OpenFrame(m: Scan, t: Byte)
    requires !m.mode.BodyEsc? && Known(t)
    ensures Run(m, [ESC, t]) == Scan(Body(t, []), m.frames, m.pos + 2, m.consumed)
  {
    RunTwo(m, ESC, t);
  }

  /** A whole frame is read from any state but a half-read escape pair. */
  lemma FrameRead(m: Scan, w: Wire)
    requires !m.mode.BodyEsc? && w.Valid()
    ensures var p := m.pos + |w.Encode()|;
            Run(m, w.Encode()) == Scan(Hunt, m.frames + [w.Parsed()], p, p)
  {
    var x := w.header + w.payload;
    RunConcat(m, [ESC, w.ftype], Stuff(x));
    OpenFrame(m, w.ftype);
    BodyRun(m.frames, m.consumed, w.ftype, [], m.pos + 2, x);
    assert [] + x == x && x[HEADER_LEN..] == w.payload;
  }

  lemma {:induction false} FramesRead(m: Scan, ws: seq<Wire>)
    requires !m.mode.BodyEsc? && AllValid(ws) && ws != []
    ensures var p := m.pos + |EncodeAll(ws)|;
            Run(m, EncodeAll(ws)) == Scan(Hunt, m.frames + ParsedAll(ws), p, p)
    decreases |ws|
  {
    var first, rest := ws[0].Encode(), EncodeAll(ws[1..]);
    var m1 := Run(m, first);
    assert m1 == Scan(Hunt, m.frames + [ws[0].Parsed()], m.pos + |first|, m.pos + |first|) by { FrameRead(m, ws[0]); }
    RunConcat(m, first, rest);
    ConcatAssoc(m.frames, [ws[0].Parsed()], ParsedAll(ws[1..]));
    if |ws| > 1 {
      FramesRead(m1, ws[1..]);
    } else {
      assert rest == [] && ParsedAll(ws[1..]) == [];
    }
  }

  /** A cut frame completes nothing; the scanner waits for half a pair exactly
      when the cut falls inside one. */
  lemma CutFrameRead(m: Scan, w: Wire, k: nat)
    requires m.mode.Hunt? && w.Valid() && k < |w.Encode()|
    ensures var r := Run(m, w.Encode()[..k]);
            && r.frames == m.frames && r.consumed == m.consumed
            && (r.mode.BodyEsc? <==> EndsInPair(w, k))
  {
    var x := w.header + w.payload;
    var e := w.Encode();
    if k == 0 {
      assert e[..0] == [];
    } else if k == 1 {
      assert e[..1] == [ESC];
      RunOne(m, ESC);
    } else {
      var i, half := StuffPrefix(x, k - 2);
      assert e[..k] == [ESC, w.ftype] + (Stuff(x[..i]) + (if half then [ESC] else []));
      RunConcat(m, [ESC, w.ftype], Stuff(x[..i]) + (if half then [ESC] else []));
      OpenFrame(m, w.ftype);
      var m1 := Run(m, [ESC, w.ftype]);
      RunConcat(m1, Stuff(x[..i]), if half then [ESC] else []);
      BodyRun(m.frames, m.consumed, w.ftype, [], m.pos + 2, x[..i]);
      assert [] + x[..i] == x[..i];
      var m2 := Run(m1, Stuff(x[..i]));
      if half {
        RunOne(m2, ESC);
      } else {
        PairEnds(w, k, i);
      }
    }
  }

  /** The first k bytes of the frame stop between the two bytes of an escape pair. */
  ghost predicate EndsInPair(w: Wire, k: nat) {
    var x := w.header + w.payload;
    exists i: nat :: i < |x| && x[i] == ESC && k == 2 + |Stuff(x[..i])| + 1
  }

  lemma PairEnds(w: Wire, k: nat, i: nat)
    requires i <= |w.header + w.payload| && k == 2 + |Stuff((w.header + w.payload)[..i])|
    ensures !EndsInPair(w, k)
  {
    var x := w.header + w.payload;
    if j: nat :| j < |x| && x[j] == ESC && k == 2 + |Stuff(x[..j])| + 1 {
      if j < i {
        assert x[..i] == x[..j] + ([x[j]] + x[j + 1..i]);
        StuffConcat(x[..j], [x[j]] + x[j + 1..i]);
      } else {
        assert x[..j] == x[..i] + x[i..j];
        StuffConcat(x[..i], x[i..j]);
      }
    }
  }
}
