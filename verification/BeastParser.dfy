/** parse_frames of aviation_feeder_mqtt/beast.py, loop for loop. */
module BeastParser {
  import opened Bytes
  import opened Beast

  /** Scanning the rest of buf from m yields what scanning all of buf yields. */
  ghost predicate OnTrack(buf: seq<Byte>, m: Scan, i: nat) {
    && i <= |buf|
    && Run(m, buf[i..]).frames == Parse(buf).frames
    && Run(m, buf[i..]).consumed == Parse(buf).consumed
  }

  lemma Advance(buf: seq<Byte>, m: Scan, i: nat)
    requires i < |buf|
    ensures Run(m, buf[i..]) == Run(Step(m, buf[i]), buf[i + 1..])
  {
    assert buf[i..][0] == buf[i] && buf[i..][1..] == buf[i + 1..];
  }

  /** An escape byte that opens no known frame can be stepped past. */
  lemma StepPast(buf: seq<Byte>, frames: seq<Frame>, i: nat, c: nat)
    requires i + 1 < |buf| && buf[i] == ESC && !Known(buf[i + 1])
    requires OnTrack(buf, Scan(Hunt, frames, i, c), i)
    ensures OnTrack(buf, Scan(Hunt, frames, i + 1, c), i + 1)
  {
    Advance(buf, Scan(Hunt, frames, i, c), i);
    Advance(buf, Step(Scan(Hunt, frames, i, c), ESC), i + 1);
    Advance(buf, Scan(Hunt, frames, i + 1, c), i + 1);
  }

  /** Inside a frame, at an escape byte that is not half of a pair or whose other
      half has not arrived, or at the end: giving the frame up loses nothing. */
  lemma GiveUp(buf: seq<Byte>, frames: seq<Frame>, t: Byte, out: seq<Byte>, j: nat, c: nat)
    requires Known(t) && |out| < Need(t)
    requires OnTrack(buf, Scan(Body(t, out), frames, j, c), j)
    requires j < |buf| ==> buf[j] == ESC && (j + 1 < |buf| ==> buf[j + 1] != ESC)
    ensures OnTrack(buf, Scan(Hunt, frames, j, c), j)
  {
    var m, h := Scan(Body(t, out), frames, j, c), Scan(Hunt, frames, j, c);
    if j < |buf| {
      Advance(buf, m, j);
      Advance(buf, h, j);
      if j + 1 < |buf| {
        Advance(buf, Step(m, ESC), j + 1);
        Advance(buf, Step(h, ESC), j + 1);
      }
    }
  }

  /** A byte outside a frame that is not an escape byte is passed over. */
  lemma Skip(buf: seq<Byte>, frames: seq<Frame>, i: nat, c: nat)
    requires i < |buf| && buf[i] != ESC && OnTrack(buf, Scan(Hunt, frames, i, c), i)
    ensures OnTrack(buf, Scan(Hunt, frames, i + 1, c), i + 1)
  {
    Advance(buf, Scan(Hunt, frames, i, c), i);
  }

  /** An escape byte at the very end completes nothing. */
  lemma LoneEscape(buf: seq<Byte>, frames: seq<Frame>, i: nat, c: nat)
    requires i + 1 == |buf| && buf[i] == ESC && OnTrack(buf, Scan(Hunt, frames, i, c), i)
    ensures frames == Parse(buf).frames && c == Parse(buf).consumed
  {
    Advance(buf, Scan(Hunt, frames, i, c), i);
  }

  lemma Enter(buf: seq<Byte>, frames: seq<Frame>, i: nat, c: nat)
    requires i + 1 < |buf| && buf[i] == ESC && Known(buf[i + 1])
    requires OnTrack(buf, Scan(Hunt, frames, i, c), i)
    ensures OnTrack(buf, Settle(frames, c, buf[i + 1], [], i + 2), i + 2)
  {
    Advance(buf, Scan(Hunt, frames, i, c), i);
    Advance(buf, Step(Scan(Hunt, frames, i, c), ESC), i + 1);
  }

  lemma TakeByte(buf: seq<Byte>, frames: seq<Frame>, t: Byte, out: seq<Byte>, j: nat, c: nat)
    requires Known(t) && |out| < Need(t) && j < |buf| && buf[j] != ESC
    requires OnTrack(buf, Settle(frames, c, t, out, j), j)
    ensures OnTrack(buf, Settle(frames, c, t, out + [buf[j]], j + 1), j + 1)
  {
    Advance(buf, Settle(frames, c, t, out, j), j);
  }

  lemma TakePair(buf: seq<Byte>, frames: seq<Frame>, t: Byte, out: seq<Byte>, j: nat, c: nat)
    requires Known(t) && |out| < Need(t) && j + 1 < |buf| && buf[j] == ESC && buf[j + 1] == ESC
    requires OnTrack(buf, Settle(frames, c, t, out, j), j)
    ensures OnTrack(buf, Settle(frames, c, t, out + [ESC], j + 2), j + 2)
  {
    var m := Settle(frames, c, t, out, j);
    Advance(buf, m, j);
    Advance(buf, Step(m, ESC), j + 1);
  }

  /** Splits buf into frames and says how many bytes they account for. */
  method ParseFrames(buf: seq<Byte>) returns (frames: seq<Frame>, consumed: nat)
    ensures frames == Parse(buf).frames
    ensures consumed == Parse(buf).consumed
  {
    frames, consumed := [], 0;
    var n := |buf|;
    var i := 0;
    assert buf[0..] == buf;
    while i < n
      invariant OnTrack(buf, Scan(Hunt, frames, i, consumed), i)
      decreases n - i
    {
      if buf[i] != ESC {
        Skip(buf, frames, i, consumed);
        i := i + 1;
        continue;
      }
      if i + 1 >= n {
        LoneEscape(buf, frames, i, consumed);
        break; // an escape byte is the last one so far
      }
      var ftype := buf[i + 1];
      var size := PayloadLen(ftype);
      if size == None {
        StepPast(buf, frames, i, consumed);
        i := i + 1;
        continue;
      }
      var need := HEADER_LEN + size.value;
      var out: seq<Byte> := [];
      var j := i + 2;
      var truncated := false;
      Enter(buf, frames, i, consumed);
      while |out| < need && j < n
        invariant i + 2 <= j <= n && |out| <= need && !truncated
        invariant OnTrack(buf, Settle(frames, consumed, ftype, out, j), j)
        decreases n - j
      {
        var b := buf[j];
        if b != ESC {
          TakeByte(buf, frames, ftype, out, j, consumed);
          out := out + [b];
          j := j + 1;
          continue;
        }
        if j + 1 >= n {
          truncated := true; // the pair's other half has not come
          break;
        }
        if buf[j + 1] == ESC {
          TakePair(buf, frames, ftype, out, j, consumed);
          out := out + [ESC];
          j := j + 2;
        } else {
          truncated := true; // not a pair, so a frame starts here
          break;
        }
      }
      // Both ways of setting `truncated` leave j < n, so this never stops the
      // loop: half a pair at the end stops it one turn later, at the test above.
      assert truncated ==> j < n;
      if truncated && j >= n {
        break;
      }
      if |out| < need {
        GiveUp(buf, frames, ftype, out, j, consumed);
        i := j;
        continue;
      }
      frames := frames + [Frame(ftype, out[HEADER_LEN..])];
      i := j;
      consumed := j;
    }
  }
}
