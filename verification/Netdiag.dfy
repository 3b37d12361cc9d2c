/** The SOCK_DIAG dump parser (netdiag.py). */
module Netdiag {
  import opened Bytes

  const SOCK_DIAG_BY_FAMILY: nat := 20
  const NLMSG_ERROR: nat := 2
  const NLMSG_DONE: nat := 3
  const INET_DIAG_INFO: nat := 2
  const BYTES_ACKED_OFF: nat := 120
  const BYTES_RECEIVED_OFF: nat := 128
  const TCPI_MIN_LEN: nat := 136
  const INET_DIAG_MSG_LEN: nat := 72

  datatype Family = Inet | Inet6

  /** Byte counters of a socket. */
  datatype Traffic = Traffic(sent: nat, received: nat)

  const NOTHING: Traffic := Traffic(0, 0)

  datatype SockStat = SockStat(remoteIp: seq<Byte>, remotePort: nat, inode: nat, traffic: Traffic)

  // ---------------------------------------------------------------- integers

  /** How the platform reads an unsigned integer of any width: `struct`'s native
      order. Everything below holds for either order. */
  type Num = seq<Byte> -> nat

  function Little(s: seq<Byte>): nat {
    if s == [] then 0 else s[0] + 256 * Little(s[1..])
  }

  function Big(s: seq<Byte>): nat {
    if s == [] then 0 else 256 * Big(s[..|s| - 1]) + s[|s| - 1]
  }

  /** Network order. */
  function NetPort(s: seq<Byte>): nat
    requires |s| == 2
  {
    Big(s)
  }

  /** n rounded up to a multiple of four. */
  function Align4(n: nat): nat {
    (n + 3) / 4 * 4
  }

  /** Python's s[n:] and s[lo:hi], which clip. */
  function Drop(s: seq<Byte>, n: nat): seq<Byte> {
    if n < |s| then s[n..] else []
  }

  function Slice(s: seq<Byte>, lo: nat, hi: nat): seq<Byte>
    requires lo <= hi
  {
    if hi < |s| then s[lo..hi] else Drop(s, lo)
  }

  // ---------------------------------------------------------------- what a dump means

  function ParseTcpInfo(num: Num, info: seq<Byte>): Option<Traffic> {
    if |info| < TCPI_MIN_LEN then None
    else Some(Traffic(num(info[BYTES_ACKED_OFF..BYTES_ACKED_OFF + 8]),
                      num(info[BYTES_RECEIVED_OFF..BYTES_RECEIVED_OFF + 8])))
  }

  /** What an attribute does to the counters found so far. */
  function TakeAttr(num: Num, kind: nat, data: seq<Byte>, found: Traffic): Traffic {
    if kind == INET_DIAG_INFO && ParseTcpInfo(num, data).Some? then ParseTcpInfo(num, data).value else found
  }

  /** The counters in an attribute list. */
  function Attrs(num: Num, s: seq<Byte>, found: Traffic): Traffic
    decreases |s|
  {
    if |s| < 4 then found
    else
      var rlen := num(s[0..2]);
      if rlen < 4 then found
      else Attrs(num, Drop(s, Align4(rlen)), TakeAttr(num, num(s[2..4]), Slice(s, 4, rlen), found))
  }

  function SockOf(num: Num, body: seq<Byte>, family: Family): SockStat
    requires |body| >= INET_DIAG_MSG_LEN
  {
    SockStat(
      if family == Inet then body[24..28] else body[24..40],
      NetPort(body[6..8]),
      num(body[68..72]),
      Attrs(num, body[INET_DIAG_MSG_LEN..], NOTHING))
  }

  function MessageSocks(num: Num, mtype: nat, body: seq<Byte>, family: Family): seq<SockStat> {
    if mtype == SOCK_DIAG_BY_FAMILY && |body| >= INET_DIAG_MSG_LEN then [SockOf(num, body, family)] else []
  }

  /** The netlink header (section 2.3.2 of RFC 3549) at the front of buf. */
  function MessageLen(num: Num, buf: seq<Byte>): nat
    requires |buf| >= 16
  {
    num(buf[0..4])
  }

  function MessageType(num: Num, buf: seq<Byte>): nat
    requires |buf| >= 16
  {
    num(buf[4..6])
  }

  /** The sockets in a dump. */
  function Dump(num: Num, buf: seq<Byte>, family: Family): seq<SockStat>
    decreases |buf|
  {
    if |buf| < 16 || MessageLen(num, buf) < 16 || MessageType(num, buf) == NLMSG_DONE then []
    else
      MessageSocks(num, MessageType(num, buf), Slice(buf, 16, MessageLen(num, buf)), family)
      + Dump(num, Drop(buf, Align4(MessageLen(num, buf))), family)
  }

  // ---------------------------------------------------------------- the parser

  lemma SliceAt(buf: seq<Byte>, off: nat, lo: nat, hi: nat)
    requires lo <= hi
    ensures Slice(Drop(buf, off), lo, hi) == Slice(buf, off + lo, off + hi)
    ensures Drop(Drop(buf, off), hi) == Drop(buf, off + hi)
  {
  }

  lemma AttrsStop(num: Num, body: seq<Byte>, aoff: nat, found: Traffic)
    requires aoff + 4 <= |body| ==> num(body[aoff..aoff + 2]) < 4
    ensures Attrs(num, Drop(body, aoff), found) == found
  {
    if aoff + 4 <= |body| {
      assert Drop(body, aoff)[0..2] == body[aoff..aoff + 2];
    }
  }

  /** The attribute at an offset, and where the next one is. */
  ghost predicate AttrHere(num: Num, body: seq<Byte>, aoff: nat, kind: nat, data: seq<Byte>, next: nat)
    requires aoff + 4 <= |body|
  {
    var rlen := num(body[aoff..aoff + 2]);
    && rlen >= 4 && kind == num(body[aoff + 2..aoff + 4])
    && data == Slice(body, aoff + 4, aoff + rlen) && next == aoff + Align4(rlen)
  }

  lemma AttrsSteps(num: Num, rest: seq<Byte>, rlen: nat, kind: nat, data: seq<Byte>, next: seq<Byte>,
                   found: Traffic, after: Traffic)
    requires |rest| >= 4 && rlen == num(rest[0..2]) >= 4 && kind == num(rest[2..4])
    requires data == Slice(rest, 4, rlen) && next == Drop(rest, Align4(rlen)) && after == TakeAttr(num, kind, data, found)
    ensures Attrs(num, rest, found) == Attrs(num, next, after)
  {
  }

  lemma AttrsHere(num: Num, body: seq<Byte>, aoff: nat, kind: nat, data: seq<Byte>, next: nat,
                  found: Traffic, after: Traffic)
    requires aoff + 4 <= |body| && AttrHere(num, body, aoff, kind, data, next)
    requires after == TakeAttr(num, kind, data, found)
    ensures Attrs(num, Drop(body, aoff), found) == Attrs(num, Drop(body, next), after)
  {
    var rest, rlen := Drop(body, aoff), num(body[aoff..aoff + 2]);
    assert rest[0..2] == body[aoff..aoff + 2] && rest[2..4] == body[aoff + 2..aoff + 4];
    SliceAt(body, aoff, 4, rlen);
    SliceAt(body, aoff, 0, Align4(rlen));
    AttrsSteps(num, rest, rlen, kind, data, Drop(body, next), found, after);
  }

  method ParseAttrs(num: Num, body: seq<Byte>) returns (found: Traffic)
    requires |body| >= INET_DIAG_MSG_LEN
    ensures found == Attrs(num, body[INET_DIAG_MSG_LEN..], NOTHING)
  {
    var aoff := INET_DIAG_MSG_LEN;
    found := NOTHING;
    ghost var whole := Attrs(num, Drop(body, aoff), found);
    assert Drop(body, aoff) == body[INET_DIAG_MSG_LEN..];
    while aoff + 4 <= |body|
      invariant Attrs(num, Drop(body, aoff), found) == whole
      decreases |body| - aoff
    {
      var rlen, rtype := num(body[aoff..aoff + 2]), num(body[aoff + 2..aoff + 4]);
      if rlen < 4 {
        break;
      }
      ghost var at, before := aoff, found;
      var data := Slice(body, aoff + 4, aoff + rlen);
      if rtype == INET_DIAG_INFO {
        var parsed := ParseTcpInfo(num, data);
        if parsed != None {
          found := parsed.value;
        }
      }
      aoff := aoff + Align4(rlen);
      AttrsHere(num, body, at, rtype, data, aoff, before, found);
    }
    AttrsStop(num, body, aoff, found);
  }

  /** Reading at an offset is reading the rest of the buffer. */
  lemma ReadAt(num: Num, buf: seq<Byte>, off: nat)
    requires off + 16 <= |buf|
    ensures var rest := Drop(buf, off);
            && |rest| >= 16
            && MessageLen(num, rest) == num(buf[off..off + 4])
            && MessageType(num, rest) == num(buf[off + 4..off + 6])
  {
    var rest := Drop(buf, off);
    assert rest[0..4] == buf[off..off + 4] && rest[4..6] == buf[off + 4..off + 6];
  }

  lemma DumpStops(num: Num, buf: seq<Byte>, off: nat, family: Family)
    requires off + 16 <= |buf|
    requires num(buf[off..off + 4]) < 16 || num(buf[off + 4..off + 6]) == NLMSG_DONE
    ensures Dump(num, Drop(buf, off), family) == []
  {
    ReadAt(num, buf, off);
  }

  lemma DumpSteps(num: Num, rest: seq<Byte>, mlen: nat, mtype: nat, body: seq<Byte>, next: seq<Byte>, family: Family)
    requires |rest| >= 16 && mlen == MessageLen(num, rest) >= 16 && mtype == MessageType(num, rest) != NLMSG_DONE
    requires body == Slice(rest, 16, mlen) && next == Drop(rest, Align4(mlen))
    ensures Dump(num, rest, family) == MessageSocks(num, mtype, body, family) + Dump(num, next, family)
  {
  }

  /** The body and the remainder of the message at an offset. */
  lemma MessageAt(num: Num, buf: seq<Byte>, off: nat, mlen: nat)
    requires off + 16 <= |buf| && mlen == num(buf[off..off + 4]) >= 16
    ensures Slice(Drop(buf, off), 16, mlen) == Slice(buf, off + 16, off + mlen)
    ensures Drop(Drop(buf, off), Align4(mlen)) == Drop(buf, off + Align4(mlen))
  {
    SliceAt(buf, off, 16, mlen);
    SliceAt(buf, off, 0, Align4(mlen));
  }

  /** The message at an offset has this body, and the next one is at next. */
  ghost predicate Here(num: Num, buf: seq<Byte>, off: nat, mtype: nat, body: seq<Byte>, next: nat)
    requires off + 16 <= |buf|
  {
    var mlen := num(buf[off..off + 4]);
    && mlen >= 16 && mtype == num(buf[off + 4..off + 6]) != NLMSG_DONE
    && body == Slice(buf, off + 16, off + mlen) && next == off + Align4(mlen)
  }

  lemma DumpHere(num: Num, buf: seq<Byte>, off: nat, mtype: nat, body: seq<Byte>, next: nat, family: Family)
    requires off + 16 <= |buf| && Here(num, buf, off, mtype, body, next)
    ensures Dump(num, Drop(buf, off), family) == MessageSocks(num, mtype, body, family) + Dump(num, Drop(buf, next), family)
  {
    var mlen := num(buf[off..off + 4]);
    ReadAt(num, buf, off);
    MessageAt(num, buf, off, mlen);
    DumpSteps(num, Drop(buf, off), mlen, mtype, body, Drop(buf, next), family);
  }

  lemma Regroup<T>(out: seq<T>, socks: seq<T>, later: seq<T>, before: seq<T>, found: seq<T>)
    requires before == socks + later && found == out + socks
    ensures out + before == found + later
  {
  }

  /** What has been found, and what is still to be found from an offset on, is
      all there is in the buffer. */
  ghost predicate Divided(num: Num, buf: seq<Byte>, family: Family, off: nat, out: seq<SockStat>) {
    Dump(num, buf, family) == out + Dump(num, Drop(buf, off), family)
  }

  lemma SplitStart(num: Num, buf: seq<Byte>, family: Family)
    ensures Divided(num, buf, family, 0, [])
  {
    assert Drop(buf, 0) == buf && [] + Dump(num, buf, family) == Dump(num, buf, family);
  }

  lemma SplitEnd(num: Num, buf: seq<Byte>, family: Family, off: nat, out: seq<SockStat>)
    requires Divided(num, buf, family, off, out)
    requires off + 16 <= |buf| ==> num(buf[off..off + 4]) < 16 || num(buf[off + 4..off + 6]) == NLMSG_DONE
    ensures out == Dump(num, buf, family)
  {
    if off + 16 <= |buf| {
      DumpStops(num, buf, off, family);
    }
    assert out + [] == out;
  }

  lemma SplitOn(num: Num, buf: seq<Byte>, family: Family, off: nat, out: seq<SockStat>,
                socks: seq<SockStat>, next: nat, found: seq<SockStat>)
    requires Divided(num, buf, family, off, out) && found == out + socks
    requires Dump(num, Drop(buf, off), family) == socks + Dump(num, Drop(buf, next), family)
    ensures Divided(num, buf, family, next, found)
  {
    Regroup(out, socks, Dump(num, Drop(buf, next), family), Dump(num, Drop(buf, off), family), found);
  }

  /** Every read is inside the buffer, whatever the buffer holds. */
  method ParseDump(num: Num, buf: seq<Byte>, family: Family) returns (out: seq<SockStat>)
    ensures out == Dump(num, buf, family)
  {
    out := [];
    var off := 0;
    var n := |buf|;
    SplitStart(num, buf, family);
    while off + 16 <= n
      invariant Divided(num, buf, family, off, out)
      decreases n - off
    {
      var mlen, mtype := num(buf[off..off + 4]), num(buf[off + 4..off + 6]);
      if mlen < 16 || mtype == NLMSG_DONE {
        break;
      }
      ghost var at, before := off, out;
      var body := Slice(buf, off + 16, off + mlen);
      var socks := ParseMessage(num, mtype, body, family);
      off := off + Align4(mlen);
      out := out + socks;
      DumpHere(num, buf, at, mtype, body, off, family);
      SplitOn(num, buf, family, at, before, socks, off, out);
    }
    SplitEnd(num, buf, family, off, out);
  }

  method ParseMessage(num: Num, mtype: nat, body: seq<Byte>, family: Family) returns (socks: seq<SockStat>)
    ensures socks == MessageSocks(num, mtype, body, family)
  {
    if mtype == SOCK_DIAG_BY_FAMILY {
      if |body| >= INET_DIAG_MSG_LEN {
        var dport := NetPort(body[6..8]);
        var dst := body[24..40];
        var inode := num(body[68..72]);
        assert dst[..4] == body[24..28];
        var remoteIp := if family == Inet then dst[..4] else dst;
        var counters := ParseAttrs(num, body);
        return [SockStat(remoteIp, dport, inode, counters)];
      }
    }
    return [];
  }

  // ---------------------------------------------------------------- receiving a dump

  /** A datagram ends the dump if a DONE or an ERROR stands in its chain of messages. */
  predicate Ends(num: Num, chunk: seq<Byte>)
    decreases |chunk|
  {
    && |chunk| >= 16 && MessageLen(num, chunk) >= 16
    && (MessageType(num, chunk) == NLMSG_DONE || MessageType(num, chunk) == NLMSG_ERROR
        || Ends(num, Drop(chunk, Align4(MessageLen(num, chunk)))))
  }

  method ScanForEnd(num: Num, chunk: seq<Byte>) returns (done: bool)
    ensures done == Ends(num, chunk)
  {
    var off := 0;
    done := false;
    assert Drop(chunk, 0) == chunk;
    while off + 16 <= |chunk|
      invariant !done && Ends(num, Drop(chunk, off)) == Ends(num, chunk)
      decreases |chunk| - off
    {
      ReadAt(num, chunk, off);
      var mlen, mtype := num(chunk[off..off + 4]), num(chunk[off + 4..off + 6]);
      if mlen < 16 {
        break;
      }
      if mtype == NLMSG_DONE || mtype == NLMSG_ERROR {
        done := true;
        break;
      }
      SliceAt(chunk, off, 0, Align4(mlen));
      off := off + Align4(mlen);
    }
  }

  /** What _dump_family returns for the datagrams recv delivers: everything up to
      the one that ends the dump, or up to an empty read; nothing if recv times
      out first. */
  function Collected(num: Num, datagrams: seq<seq<Byte>>): Option<seq<Byte>> {
    if datagrams == [] then None
    else if datagrams[0] == [] then Some([])
    else if Ends(num, datagrams[0]) then Some(datagrams[0])
    else match Collected(num, datagrams[1..])
      case None => None
      case Some(rest) => Some(datagrams[0] + rest)
  }

  /** The first datagram at which receiving stops: an empty one, or one that ends
      the dump. */
  ghost predicate StopsAt(num: Num, datagrams: seq<seq<Byte>>, n: nat) {
    && n < |datagrams| && (datagrams[n] == [] || Ends(num, datagrams[n]))
    && forall k :: 0 <= k < n ==> datagrams[k] != [] && !Ends(num, datagrams[k])
  }

  /** All that came up to there is kept. */
  lemma {:induction false} CollectedUpTo(num: Num, datagrams: seq<seq<Byte>>, n: nat)
    requires StopsAt(num, datagrams, n)
    ensures Collected(num, datagrams) == Some(Join(datagrams[..n + 1]))
    decreases n
  {
    var first, later := datagrams[0], datagrams[1..];
    if n == 0 {
      assert datagrams[..1] == [first];
      JoinOne(first);
    } else {
      assert datagrams[..n + 1] == [first] + later[..n];
      JoinConcat([first], later[..n]);
      JoinOne(first);
      assert forall k :: 0 <= k < n - 1 ==> later[k] == datagrams[k + 1];
      CollectedUpTo(num, later, n - 1);
    }
  }

  /** If receiving times out before that, the family contributes no socket. */
  lemma {:induction false} TimedOutGivesNothing(num: Num, datagrams: seq<seq<Byte>>, family: Family)
    requires forall n :: 0 <= n < |datagrams| ==> datagrams[n] != [] && !Ends(num, datagrams[n])
    ensures Collected(num, datagrams) == None && FamilySocks(num, datagrams, family) == []
    decreases |datagrams|
  {
    if datagrams != [] {
      TimedOutGivesNothing(num, datagrams[1..], family);
    }
  }

  /** Ports are in network order whatever the platform's: the high byte first. */
  lemma PortBytes(hi: Byte, lo: Byte)
    ensures NetPort([hi, lo]) == 256 * hi + lo
  {
    var both, one := [hi, lo], [hi];
    assert both[..1] == one && one[..0] == [] && Big(one) == hi;
  }

  /** What a later result makes of the bytes received before. */
  function Prepend(buf: seq<Byte>, later: Option<seq<Byte>>): Option<seq<Byte>> {
    if later == None then None else Some(buf + later.value)
  }

  method Receive(num: Num, datagrams: seq<seq<Byte>>) returns (buf: Option<seq<Byte>>)
    ensures buf == Collected(num, datagrams)
  {
    var got: seq<Byte> := [];
    assert datagrams[0..] == datagrams && forall b: seq<Byte> :: [] + b == b;
    for i := 0 to |datagrams|
      invariant Collected(num, datagrams) == Prepend(got, Collected(num, datagrams[i..]))
    {
      var chunk := datagrams[i];
      assert datagrams[i..][0] == chunk && datagrams[i..][1..] == datagrams[i + 1..];
      if chunk == [] {
        assert got + [] == got;
        return Some(got);
      }
      var done := ScanForEnd(num, chunk);
      if done {
        return Some(got + chunk);
      }
      ghost var later := Collected(num, datagrams[i + 1..]);
      if later.Some? {
        ConcatAssoc(got, chunk, later.value);
      }
      got := got + chunk;
    }
    return None;
  }

  /** One address family's sockets: none if its dump failed. */
  function FamilySocks(num: Num, datagrams: seq<seq<Byte>>, family: Family): seq<SockStat> {
    match Collected(num, datagrams)
    case None => []
    case Some(buf) => Dump(num, buf, family)
  }

  /** Both families; one that fails is skipped, so the result may be half a dump. */
  method EstablishedSockets(num: Num, v4: seq<seq<Byte>>, v6: seq<seq<Byte>>) returns (out: seq<SockStat>)
    ensures out == FamilySocks(num, v4, Inet) + FamilySocks(num, v6, Inet6)
  {
    out := [];
    var buf := Receive(num, v4);
    if buf.Some? {
      out := ParseDump(num, buf.value, Inet);
    }
    buf := Receive(num, v6);
    if buf.Some? {
      var more := ParseDump(num, buf.value, Inet6);
      out := out + more;
    }
  }
}
