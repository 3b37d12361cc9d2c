/** What the kernel sends in answer to a SOCK_DIAG dump request, and what the
    parser makes of it: whole, followed by junk, cut anywhere, or in datagrams. */
module NetdiagDump {
  import opened Bytes
  import opened Netdiag

  // ---------------------------------------------------------------- the sender

  /** How the kernel writes an integer n in w bytes. */
  type Put = (nat, nat) -> seq<Byte>

  function Limit(w: nat): nat {
    if w == 2 then 0x1_0000
    else if w == 4 then 0x1_0000_0000
    else if w == 8 then 0x1_0000_0000_0000_0000
    else 0
  }

  /** Sender and parser use the same byte order. */
  ghost predicate SameOrder(num: Num, put: Put) {
    forall n: nat, w: nat :: n < Limit(w) ==> |put(n, w)| == w && num(put(n, w)) == n
  }

  function PutLittle(n: nat, w: nat): (s: seq<Byte>)
    ensures |s| == w
  {
    if w == 0 then [] else [n % 256] + PutLittle(n / 256, w - 1)
  }

  function PutBig(n: nat, w: nat): (s: seq<Byte>)
    ensures |s| == w
  {
    if w == 0 then [] else PutBig(n / 256, w - 1) + [n % 256]
  }

  function Pow256(w: nat): nat {
    if w == 0 then 1 else 256 * Pow256(w - 1)
  }

  lemma {:induction false} LittleBack(n: nat, w: nat)
    requires n < Pow256(w)
    ensures Little(PutLittle(n, w)) == n
  {
    if w > 0 {
      LittleBack(n / 256, w - 1);
      assert PutLittle(n, w)[1..] == PutLittle(n / 256, w - 1);
    }
  }

  lemma {:induction false} BigBack(n: nat, w: nat)
    requires n < Pow256(w)
    ensures Big(PutBig(n, w)) == n
  {
    if w > 0 {
      BigBack(n / 256, w - 1);
      assert PutBig(n, w)[..w - 1] == PutBig(n / 256, w - 1);
    }
  }

  lemma LimitIsPower(w: nat)
    ensures Limit(w) == 0 || Limit(w) == Pow256(w)
  {
    if w == 2 || w == 4 || w == 8 {
      assert Pow256(2) == 0x1_0000;
      assert Pow256(4) == 256 * (256 * Pow256(2));
      assert Pow256(8) == 256 * (256 * Pow256(6)) && Pow256(6) == 256 * (256 * Pow256(4));
    }
  }

  /** Both byte orders in use are orders in this sense. */
  lemma OrdersExist()
    ensures SameOrder(Little, PutLittle) && SameOrder(Big, PutBig)
  {
    forall n: nat, w: nat | n < Limit(w)
      ensures Little(PutLittle(n, w)) == n && Big(PutBig(n, w)) == n
    {
      LimitIsPower(w);
      LittleBack(n, w);
      BigBack(n, w);
    }
  }

  datatype Attr =
    | Info(pre: seq<Byte>, traffic: Traffic, post: seq<Byte>) // tcp_info with byte counters
    | Plain(kind: nat, data: seq<Byte>)
  {
    predicate Valid() {
      match this
      case Info(pre, t, post) =>
        |pre| == BYTES_ACKED_OFF && t.sent < Limit(8) && t.received < Limit(8) && |pre| + |post| + 20 < Limit(2)
      case Plain(kind, data) =>
        kind < Limit(2) && |data| + 4 < Limit(2) && (kind == INET_DIAG_INFO ==> |data| < TCPI_MIN_LEN)
    }

    function Kind(): nat {
      if Info? then INET_DIAG_INFO else kind
    }

    function Data(put: Put): seq<Byte> {
      match this
      case Info(pre, t, post) => pre + put(t.sent, 8) + put(t.received, 8) + post
      case Plain(_, data) => data
    }

    function Bytes(put: Put): seq<Byte> {
      var data := Data(put);
      put(|data| + 4, 2) + put(Kind(), 2) + data + Pad(|data| + 4)
    }
  }

  function Pad(n: nat): (s: seq<Byte>)
    ensures |s| == Align4(n) - n
  {
    [0, 0, 0][..Align4(n) - n]
  }

  function AttrBytes(put: Put, attrs: seq<Attr>): seq<Byte> {
    if attrs == [] then [] else attrs[0].Bytes(put) + AttrBytes(put, attrs[1..])
  }

  ghost predicate AttrsValid(attrs: seq<Attr>) {
    forall a <- attrs :: a.Valid()
  }

  function Taken(a: Attr, found: Traffic): Traffic {
    if a.Info? then a.traffic else found
  }

  /** The counters of the last attribute that carries any, or those found before. */
  function Counters(attrs: seq<Attr>, found: Traffic): Traffic
    decreases |attrs|
  {
    if attrs == [] then found else Counters(attrs[1..], Taken(attrs[0], found))
  }

  datatype Body =
    | Diag(pre: seq<Byte>, dport: seq<Byte>, src: seq<Byte>, dst: seq<Byte>, mid: seq<Byte>, inode: nat, attrs: seq<Attr>)
    | Raw(bytes: seq<Byte>)

  /** A netlink message: type, the rest of its header, and its body. */
  datatype Message = Message(mtype: nat, rest: seq<Byte>, body: Body) {
    ghost predicate Valid(put: Put) {
      && mtype < Limit(2) && |rest| == 10
      && 16 + |BodyBytes(put)| < Limit(4)
      && match body
         case Diag(pre, dport, src, dst, mid, inode, attrs) =>
           && mtype == SOCK_DIAG_BY_FAMILY
           && |pre| == 6 && |dport| == 2 && |src| == 16 && |dst| == 16 && |mid| == 28
           && inode < Limit(4) && AttrsValid(attrs)
         case Raw(bytes) => mtype == SOCK_DIAG_BY_FAMILY ==> |bytes| < INET_DIAG_MSG_LEN
    }

    function BodyBytes(put: Put): seq<Byte> {
      match body
      case Diag(pre, dport, src, dst, mid, inode, attrs) =>
        (pre + dport + src + dst + mid + put(inode, 4)) + AttrBytes(put, attrs)
      case Raw(bytes) => bytes
    }

    function Bytes(put: Put): seq<Byte> {
      var body := BodyBytes(put);
      (put(16 + |body|, 4) + put(mtype, 2) + rest) + body + Pad(16 + |body|)
    }

    /** The socket it describes, with the counters of its first j attributes. */
    function Sock(family: Family, j: nat): SockStat
      requires body.Diag? && |body.dport| == 2 && |body.dst| == 16 && j <= |body.attrs|
    {
      SockStat(if family == Inet then body.dst[..4] else body.dst, NetPort(body.dport), body.inode,
               Counters(body.attrs[..j], NOTHING))
    }

    ghost function Socks(put: Put, family: Family): seq<SockStat>
      requires Valid(put)
    {
      if body.Diag? then [Sock(family, |body.attrs|)] else []
    }
  }

  /** Whole messages none of which ends the dump. */
  ghost predicate AllValid(put: Put, ms: seq<Message>) {
    forall m <- ms :: m.Valid(put) && m.mtype != NLMSG_DONE
  }

  function MessageBytes(put: Put, ms: seq<Message>): seq<Byte> {
    if ms == [] then [] else ms[0].Bytes(put) + MessageBytes(put, ms[1..])
  }

  ghost function AllSocks(put: Put, ms: seq<Message>, family: Family): seq<SockStat>
    requires AllValid(put, ms)
  {
    if ms == [] then [] else ms[0].Socks(put, family) + AllSocks(put, ms[1..], family)
  }

  // ---------------------------------------------------------------- attributes

  /** The start of an attribute's data gives its counters if it reaches past them. */
  lemma InfoRead(num: Num, put: Put, a: Attr, cut: seq<Byte>)
    requires SameOrder(num, put) && a.Valid() && a.Info? && cut <= a.Data(put) && |cut| >= TCPI_MIN_LEN
    ensures ParseTcpInfo(num, cut) == Some(a.traffic)
  {
    var x, y := put(a.traffic.sent, 8), put(a.traffic.received, 8);
    assert |x| == 8 && |y| == 8;
    assert cut[120..128] == a.Data(put)[120..128] == x;
    assert cut[128..136] == a.Data(put)[128..136] == y;
  }

  /** Where the kernel puts the counters: acknowledged bytes at 120, received ones
      at 128, each in eight bytes. */
  lemma CounterLayout(put: Put, a: Attr)
    requires a.Valid() && a.Info? && |put(a.traffic.sent, 8)| == 8 && |put(a.traffic.received, 8)| == 8
    ensures |a.Data(put)| >= 136
    ensures a.Data(put)[120..128] == put(a.traffic.sent, 8) && a.Data(put)[128..136] == put(a.traffic.received, 8)
  {
  }

  lemma DataTaken(num: Num, put: Put, a: Attr, cut: seq<Byte>, found: Traffic)
    requires SameOrder(num, put) && a.Valid() && cut <= a.Data(put)
    ensures TakeAttr(num, a.Kind(), cut, found) == if |cut| >= TCPI_MIN_LEN then Taken(a, found) else found
  {
    if a.Info? && |cut| >= TCPI_MIN_LEN {
      InfoRead(num, put, a, cut);
    }
  }

  lemma DataLength(num: Num, put: Put, a: Attr)
    requires SameOrder(num, put) && a.Valid()
    ensures |a.Data(put)| + 4 < Limit(2) && (a.Info? ==> |a.Data(put)| >= TCPI_MIN_LEN)
  {
    if a.Info? {
      assert |put(a.traffic.sent, 8)| == 8 && |put(a.traffic.received, 8)| == 8;
    }
  }

  /** The header of an attribute, and what the parser takes for its data, in any
      bytes that start like it. */
  lemma AttrHeader(num: Num, put: Put, a: Attr, s: seq<Byte>, len: nat)
    requires SameOrder(num, put) && a.Valid() && |s| >= 4 && len == |a.Data(put)| + 4 < Limit(2)
    requires s <= a.Bytes(put) || a.Bytes(put) <= s
    ensures num(s[0..2]) == len && num(s[2..4]) == a.Kind()
    ensures Slice(s, 4, len) == if |s| < len then a.Data(put)[..|s| - 4] else a.Data(put)
    ensures |a.Bytes(put)| == Align4(len)
  {
    var p, q, data := put(len, 2), put(a.Kind(), 2), a.Data(put);
    assert |p| == 2 && |q| == 2 && num(p) == len && num(q) == a.Kind();
    var b := a.Bytes(put);
    assert b[0..2] == p && b[2..4] == q && b[4..len] == data;
    assert s[0..2] == b[0..2] && s[2..4] == b[2..4];
    if |s| < len {
      assert s[4..] == b[4..len][..|s| - 4];
    } else {
      assert s[4..len] == b[4..len];
    }
  }

  lemma AttrStep(num: Num, put: Put, a: Attr, tail: seq<Byte>, found: Traffic)
    requires SameOrder(num, put) && a.Valid()
    ensures Attrs(num, a.Bytes(put) + tail, found) == Attrs(num, tail, Taken(a, found))
  {
    var s, data := a.Bytes(put) + tail, a.Data(put);
    DataLength(num, put, a);
    assert |s| >= 4;
    AttrHeader(num, put, a, s, |data| + 4);
    DataTaken(num, put, a, data, found);
    assert Drop(s, Align4(|data| + 4)) == tail;
    assert TakeAttr(num, a.Kind(), data, found) == Taken(a, found);
  }

  /** An attribute counts once this much of it has arrived: all of it, or enough
      to reach past the byte counters. */
  function Enough(put: Put, a: Attr): nat {
    if |a.Bytes(put)| < 4 + TCPI_MIN_LEN then |a.Bytes(put)| else 4 + TCPI_MIN_LEN
  }

  /** How many attributes count when k bytes of the list have arrived. */
  function Arrived(put: Put, attrs: seq<Attr>, k: nat): (j: nat)
    ensures j <= |attrs|
  {
    if attrs == [] then 0
    else if k < |attrs[0].Bytes(put)| then (if k < Enough(put, attrs[0]) then 0 else 1)
    else 1 + Arrived(put, attrs[1..], k - |attrs[0].Bytes(put)|)
  }

  lemma AttrBytesTake(put: Put, attrs: seq<Attr>, i: nat)
    requires 0 < i <= |attrs|
    ensures |AttrBytes(put, attrs[..i])| == |attrs[0].Bytes(put)| + |AttrBytes(put, attrs[1..][..i - 1])|
  {
    assert attrs[..i][1..] == attrs[1..][..i - 1] && attrs[..i][0] == attrs[0];
  }

  /** That is: attribute i counts exactly when enough of it has arrived. */
  lemma {:induction false} ArrivedExactly(put: Put, attrs: seq<Attr>, k: nat, i: nat)
    requires i < |attrs|
    ensures i < Arrived(put, attrs, k) <==> k >= |AttrBytes(put, attrs[..i])| + Enough(put, attrs[i])
    decreases |attrs|
  {
    var first := |attrs[0].Bytes(put)|;
    if i == 0 {
      assert attrs[..0] == [];
    } else {
      AttrBytesTake(put, attrs, i);
      if k >= first {
        ArrivedExactly(put, attrs[1..], k - first, i - 1);
        assert Arrived(put, attrs, k) == 1 + Arrived(put, attrs[1..], k - first);
      }
    }
  }

  lemma {:induction false} AllArrived(put: Put, attrs: seq<Attr>, k: nat)
    requires k >= |AttrBytes(put, attrs)|
    ensures Arrived(put, attrs, k) == |attrs|
    decreases |attrs|
  {
    if attrs != [] {
      AllArrived(put, attrs[1..], k - |attrs[0].Bytes(put)|);
    }
  }

  lemma AttrCut(num: Num, put: Put, a: Attr, s: seq<Byte>, found: Traffic)
    requires SameOrder(num, put) && a.Valid() && s < a.Bytes(put)
    ensures Attrs(num, s, found) == if |s| < Enough(put, a) then found else Taken(a, found)
  {
    if |s| >= 4 {
      var len := |a.Data(put)| + 4;
      DataLength(num, put, a);
      AttrHeader(num, put, a, s, len);
      var cut := Slice(s, 4, len);
      DataTaken(num, put, a, cut, found);
      assert Drop(s, Align4(len)) == [];
      assert Attrs(num, s, found) == TakeAttr(num, a.Kind(), cut, found);
    }
  }

  /** An attribute list cut at any byte gives the counters of exactly the
      attributes that count by then. */
  lemma {:induction false} AttrsCut(num: Num, put: Put, attrs: seq<Attr>, s: seq<Byte>, found: Traffic)
    requires SameOrder(num, put) && AttrsValid(attrs) && s <= AttrBytes(put, attrs)
    ensures Attrs(num, s, found) == Counters(attrs[..Arrived(put, attrs, |s|)], found)
    decreases |attrs|
  {
    if attrs != [] {
      var first := attrs[0].Bytes(put);
      if |s| < |first| {
        assert s == AttrBytes(put, attrs)[..|s|] == first[..|s|];
        AttrCut(num, put, attrs[0], s, found);
        CountersShort(attrs, found);
      } else {
        var rest := s[|first|..];
        PrefixBeyond(first, AttrBytes(put, attrs[1..]), s);
        AttrStep(num, put, attrs[0], rest, found);
        AttrsCut(num, put, attrs[1..], rest, Taken(attrs[0], found));
        CountersMore(attrs, Arrived(put, attrs[1..], |rest|), found);
      }
    }
  }

  lemma CountersShort(attrs: seq<Attr>, found: Traffic)
    requires attrs != []
    ensures Counters(attrs[..0], found) == found && Counters(attrs[..1], found) == Taken(attrs[0], found)
  {
    assert attrs[..0] == [] && attrs[..1][1..] == [] && attrs[..1][0] == attrs[0];
  }

  lemma CountersMore(attrs: seq<Attr>, j: nat, found: Traffic)
    requires j < |attrs|
    ensures Counters(attrs[..j + 1], found) == Counters(attrs[1..][..j], Taken(attrs[0], found))
  {
    assert attrs[..j + 1][1..] == attrs[1..][..j] && attrs[..j + 1][0] == attrs[0];
  }

  // ---------------------------------------------------------------- messages

  /** The fixed part of a socket's message. */
  function Fixed(put: Put, d: Body): seq<Byte>
    requires d.Diag?
  {
    d.pre + d.dport + d.src + d.dst + d.mid + put(d.inode, 4)
  }

  lemma BodyParts(num: Num, put: Put, m: Message, b: seq<Byte>)
    requires SameOrder(num, put) && m.Valid(put) && m.body.Diag?
    requires b <= m.BodyBytes(put) && |b| >= INET_DIAG_MSG_LEN
    ensures b[..72] == Fixed(put, m.body) && b[72..] <= AttrBytes(put, m.body.attrs)
  {
    var fixed, tail := Fixed(put, m.body), AttrBytes(put, m.body.attrs);
    assert |put(m.body.inode, 4)| == 4;
    assert m.BodyBytes(put) == fixed + tail && |fixed| == 72;
    assert b[72..] == (fixed + tail)[..|b|][72..];
  }

  /** The start of a socket's message gives the socket, with the counters of the
      attributes that count by then. */
  lemma BodyCut(num: Num, put: Put, m: Message, b: seq<Byte>, family: Family)
    requires SameOrder(num, put) && m.Valid(put) && m.body.Diag?
    requires b <= m.BodyBytes(put) && |b| >= INET_DIAG_MSG_LEN
    ensures SockOf(num, b, family) == m.Sock(family, Arrived(put, m.body.attrs, |b| - INET_DIAG_MSG_LEN))
  {
    var p := put(m.body.inode, 4);
    assert |p| == 4 && num(p) == m.body.inode;
    BodyParts(num, put, m, b);
    FixedFields(b, m.body, p);
    AttrsCut(num, put, m.body.attrs, b[72..], NOTHING);
  }

  lemma FixedFields(b: seq<Byte>, d: Body, p: seq<Byte>)
    requires d.Diag? && |d.pre| == 6 && |d.dport| == 2 && |d.src| == 16 && |d.dst| == 16 && |d.mid| == 28 && |p| == 4
    requires |b| >= 72 && b[..72] == d.pre + d.dport + d.src + d.dst + d.mid + p
    ensures b[6..8] == d.dport && b[24..40] == d.dst && b[24..28] == d.dst[..4] && b[68..72] == p
  {
    var f := b[..72];
    assert b[6..8] == f[6..8] == d.dport;
    assert b[24..40] == f[24..40] == d.dst;
    assert b[68..72] == f[68..72] == p;
    assert b[24..28] == b[24..40][..4];
  }

  /** The header of a message, and what the parser takes for its body, in any
      bytes that start like it. */
  lemma MessageHeader(num: Num, put: Put, m: Message, s: seq<Byte>, len: nat)
    requires SameOrder(num, put) && m.Valid(put) && |s| >= 16 && len == 16 + |m.BodyBytes(put)|
    requires s <= m.Bytes(put) || m.Bytes(put) <= s
    ensures MessageLen(num, s) == len && MessageType(num, s) == m.mtype
    ensures Slice(s, 16, len) == if |s| < len then m.BodyBytes(put)[..|s| - 16] else m.BodyBytes(put)
    ensures |m.Bytes(put)| == Align4(len)
  {
    var p, q, body := put(len, 4), put(m.mtype, 2), m.BodyBytes(put);
    assert |p| == 4 && |q| == 2 && num(p) == len && num(q) == m.mtype;
    var b := m.Bytes(put);
    assert b[0..4] == p && b[4..6] == q && b[16..len] == body;
    assert s[0..4] == b[0..4] && s[4..6] == b[4..6];
    if |s| < len {
      assert s[16..] == b[16..len][..|s| - 16];
    } else {
      assert s[16..len] == b[16..len];
    }
  }

  lemma BodyWhole(num: Num, put: Put, m: Message, family: Family)
    requires SameOrder(num, put) && m.Valid(put)
    ensures MessageSocks(num, m.mtype, m.BodyBytes(put), family) == m.Socks(put, family)
  {
    if m.body.Diag? {
      assert |put(m.body.inode, 4)| == 4;
      BodyCut(num, put, m, m.BodyBytes(put), family);
      AllArrived(put, m.body.attrs, |m.BodyBytes(put)| - INET_DIAG_MSG_LEN);
    }
  }

  /** A whole message gives its socket, and what follows is read as if it stood alone. */
  lemma MessageStep(num: Num, put: Put, m: Message, tail: seq<Byte>, family: Family)
    requires SameOrder(num, put) && m.Valid(put) && m.mtype != NLMSG_DONE
    ensures Dump(num, m.Bytes(put) + tail, family) == m.Socks(put, family) + Dump(num, tail, family)
  {
    var s, body := m.Bytes(put) + tail, m.BodyBytes(put);
    var len := 16 + |body|;
    assert |put(len, 4)| == 4 && |put(m.mtype, 2)| == 2;
    MessageHeader(num, put, m, s, len);
    BodyWhole(num, put, m, family);
    assert Drop(s, Align4(len)) == tail;
    DumpSteps(num, s, len, m.mtype, body, tail, family);
  }

  /** What the first k bytes of a message give: its socket, if its fixed part is
      there, with the counters of the attributes that count by then. */
  ghost function CutSocks(put: Put, m: Message, k: nat, family: Family): seq<SockStat>
    requires m.Valid(put)
  {
    if m.body.Diag? && k >= 16 + INET_DIAG_MSG_LEN
    then [m.Sock(family, Arrived(put, m.body.attrs, k - 16 - INET_DIAG_MSG_LEN))]
    else []
  }

  lemma MessageCut(num: Num, put: Put, m: Message, s: seq<Byte>, family: Family)
    requires SameOrder(num, put) && m.Valid(put) && m.mtype != NLMSG_DONE && s < m.Bytes(put)
    ensures Dump(num, s, family) == CutSocks(put, m, |s|, family)
  {
    if |s| >= 16 {
      var len := 16 + |m.BodyBytes(put)|;
      MessageHeader(num, put, m, s, len);
      var b := Slice(s, 16, len);
      assert b <= m.BodyBytes(put);
      assert Drop(s, Align4(len)) == [];
      DumpSteps(num, s, len, m.mtype, b, [], family);
      if m.body.Diag? {
        CutSocket(num, put, m, b, |s|, family);
      }
    }
  }

  lemma CutSocket(num: Num, put: Put, m: Message, b: seq<Byte>, k: nat, family: Family)
    requires SameOrder(num, put) && m.Valid(put) && m.body.Diag? && k >= 16
    requires b <= m.BodyBytes(put) && (b == m.BodyBytes(put) || |b| == k - 16) && |b| <= k - 16
    ensures MessageSocks(num, m.mtype, b, family) == CutSocks(put, m, k, family)
  {
    if |b| >= INET_DIAG_MSG_LEN {
      BodyCut(num, put, m, b, family);
      SameArrived(num, put, m, b, k);
    } else {
      assert |put(m.body.inode, 4)| == 4;
    }
  }

  lemma BodyLength(num: Num, put: Put, m: Message)
    requires SameOrder(num, put) && m.Valid(put) && m.body.Diag?
    ensures |m.BodyBytes(put)| == INET_DIAG_MSG_LEN + |AttrBytes(put, m.body.attrs)|
  {
    assert |put(m.body.inode, 4)| == 4;
    assert m.BodyBytes(put) == Fixed(put, m.body) + AttrBytes(put, m.body.attrs);
  }

  /** Padding brings no more attributes. */
  lemma SameArrived(num: Num, put: Put, m: Message, b: seq<Byte>, k: nat)
    requires SameOrder(num, put) && m.Valid(put) && m.body.Diag? && INET_DIAG_MSG_LEN <= |b| <= k - 16
    requires b == m.BodyBytes(put) || |b| == k - 16
    ensures Arrived(put, m.body.attrs, |b| - INET_DIAG_MSG_LEN) == Arrived(put, m.body.attrs, k - 16 - INET_DIAG_MSG_LEN)
  {
    if |b| < k - 16 {
      var all := |b| - INET_DIAG_MSG_LEN;
      BodyLength(num, put, m);
      AllArrived(put, m.body.attrs, all);
      AllArrived(put, m.body.attrs, k - 16 - INET_DIAG_MSG_LEN);
    }
  }

  // ---------------------------------------------------------------- dumps

  lemma MessageBytesCons(put: Put, ms: seq<Message>, tail: seq<Byte>)
    requires ms != []
    ensures MessageBytes(put, ms) + tail == ms[0].Bytes(put) + (MessageBytes(put, ms[1..]) + tail)
  {
    ConcatAssoc(ms[0].Bytes(put), MessageBytes(put, ms[1..]), tail);
  }

  lemma MessageBytesTake(put: Put, ms: seq<Message>, n: nat)
    requires n < |ms|
    ensures MessageBytes(put, ms[..n + 1]) == ms[0].Bytes(put) + MessageBytes(put, ms[1..][..n])
  {
    assert ms[..n + 1][1..] == ms[1..][..n] && ms[..n + 1][0] == ms[0];
  }

  /** Parsing distributes over whole messages: each gives its socket exactly
      once, in order, and whatever follows is parsed as if it stood alone. */
  lemma {:induction false} RoundTrip(num: Num, put: Put, ms: seq<Message>, tail: seq<Byte>, family: Family)
    requires SameOrder(num, put) && AllValid(put, ms)
    ensures Dump(num, MessageBytes(put, ms) + tail, family) == AllSocks(put, ms, family) + Dump(num, tail, family)
    decreases |ms|
  {
    if ms == [] {
      assert MessageBytes(put, ms) + tail == tail;
    } else {
      var rest := MessageBytes(put, ms[1..]) + tail;
      MessageBytesCons(put, ms, tail);
      MessageStep(num, put, ms[0], rest, family);
      RoundTrip(num, put, ms[1..], tail, family);
      ConcatAssoc(ms[0].Socks(put, family), AllSocks(put, ms[1..], family), Dump(num, tail, family));
    }
  }

  /** Any message of type DONE. */
  ghost predicate IsDone(put: Put, m: Message) {
    m.Valid(put) && m.mtype == NLMSG_DONE
  }

  /** A whole dump: the messages' sockets, nothing from what follows DONE. */
  lemma DumpRoundTrip(num: Num, put: Put, ms: seq<Message>, done: Message, junk: seq<Byte>, family: Family)
    requires SameOrder(num, put) && AllValid(put, ms) && IsDone(put, done)
    ensures Dump(num, MessageBytes(put, ms) + (done.Bytes(put) + junk), family) == AllSocks(put, ms, family)
  {
    var tail := done.Bytes(put) + junk;
    RoundTrip(num, put, ms, tail, family);
    var len := 16 + |done.BodyBytes(put)|;
    assert |put(len, 4)| == 4 && |put(NLMSG_DONE, 2)| == 2;
    MessageHeader(num, put, done, tail, len);
  }

  /** A cut after k bytes falls after the first n messages: they are whole, and
      the next one, if any, is not. */
  ghost predicate CutAt(put: Put, ms: seq<Message>, k: nat, n: nat) {
    && n <= |ms| && |MessageBytes(put, ms[..n])| <= k
    && (n < |ms| ==> k < |MessageBytes(put, ms[..n])| + |ms[n].Bytes(put)|)
  }

  /** Every socket whose message is whole, and of the message that is cut the
      socket with the counters that had arrived. */
  ghost function CutDump(put: Put, ms: seq<Message>, k: nat, n: nat, family: Family): seq<SockStat>
    requires AllValid(put, ms) && CutAt(put, ms, k, n)
  {
    AllSocks(put, ms[..n], family)
    + (if n == |ms| then [] else CutSocks(put, ms[n], k - |MessageBytes(put, ms[..n])|, family))
  }

  /** A dump cut at any byte alters at most the last socket found, and of it only
      the counters: those of exactly the attributes that had arrived. */
  lemma DumpCut(num: Num, put: Put, ms: seq<Message>, s: seq<Byte>, family: Family)
    requires SameOrder(num, put) && AllValid(put, ms) && s <= MessageBytes(put, ms)
    ensures exists n: nat :: CutAt(put, ms, |s|, n) && Dump(num, s, family) == CutDump(put, ms, |s|, n, family)
  {
    var n, part := FindMessage(put, ms, s);
    RoundTrip(num, put, ms[..n], part, family);
    if n < |ms| {
      MessageCut(num, put, ms[n], part, family);
    }
    assert CutAt(put, ms, |s|, n) && Dump(num, s, family) == CutDump(put, ms, |s|, n, family);
  }

  lemma {:induction false} FindMessage(put: Put, ms: seq<Message>, s: seq<Byte>) returns (n: nat, part: seq<Byte>)
    requires s <= MessageBytes(put, ms)
    ensures n <= |ms| && s == MessageBytes(put, ms[..n]) + part
    ensures if n == |ms| then part == [] else part < ms[n].Bytes(put)
    decreases |ms|
  {
    if ms == [] {
      n, part := 0, [];
    } else {
      var first, later := ms[0].Bytes(put), MessageBytes(put, ms[1..]);
      if |s| < |first| {
        n, part := 0, s;
        assert ms[..0] == [];
        assert s == (first + later)[..|s|] == first[..|s|];
      } else {
        PrefixBeyond(first, later, s);
        n, part := FindMessage(put, ms[1..], s[|first|..]);
        MessageBytesTake(put, ms, n);
        ConcatAssoc(first, MessageBytes(put, ms[1..][..n]), part);
        n := n + 1;
      }
    }
  }

  // ---------------------------------------------------------------- datagrams

  ghost predicate NoError(ms: seq<Message>) {
    forall m <- ms :: m.mtype != NLMSG_ERROR
  }

  lemma {:induction false} EndsAfter(num: Num, put: Put, ms: seq<Message>, tail: seq<Byte>)
    requires SameOrder(num, put) && AllValid(put, ms) && NoError(ms)
    ensures Ends(num, MessageBytes(put, ms) + tail) == Ends(num, tail)
    decreases |ms|
  {
    if ms == [] {
      assert MessageBytes(put, ms) + tail == tail;
    } else {
      MessageBytesCons(put, ms, tail);
      EndsStep(num, put, ms[0], MessageBytes(put, ms[1..]) + tail);
      EndsAfter(num, put, ms[1..], tail);
    }
  }

  lemma EndsStep(num: Num, put: Put, m: Message, rest: seq<Byte>)
    requires SameOrder(num, put) && m.Valid(put) && m.mtype != NLMSG_DONE && m.mtype != NLMSG_ERROR
    ensures Ends(num, m.Bytes(put) + rest) == Ends(num, rest)
  {
    var s := m.Bytes(put) + rest;
    var len := 16 + |m.BodyBytes(put)|;
    assert |put(len, 4)| == 4 && |put(m.mtype, 2)| == 2;
    MessageHeader(num, put, m, s, len);
    assert Drop(s, Align4(len)) == rest;
  }

  /** The datagrams carry the messages of `parts` one part each, the last one
      followed by DONE and junk. */
  ghost predicate Carries(put: Put, datagrams: seq<seq<Byte>>, parts: seq<seq<Message>>, done: Message, junk: seq<Byte>) {
    && 0 < |parts| <= |datagrams| && IsDone(put, done)
    && (forall k :: 0 <= k < |parts| ==> AllValid(put, parts[k]) && NoError(parts[k]))
    && (forall k :: 0 <= k < |parts| - 1 ==> parts[k] != [] && datagrams[k] == MessageBytes(put, parts[k]))
    && datagrams[|parts| - 1] == MessageBytes(put, parts[|parts| - 1]) + (done.Bytes(put) + junk)
  }

  ghost function PartSocks(put: Put, parts: seq<seq<Message>>, family: Family): seq<SockStat>
    requires forall k :: 0 <= k < |parts| ==> AllValid(put, parts[k])
  {
    if parts == [] then [] else AllSocks(put, parts[0], family) + PartSocks(put, parts[1..], family)
  }

  /** Receiving stops exactly at the datagram that carries DONE, and what was
      received parses to exactly the sockets sent, however the kernel grouped
      its messages into datagrams and whatever comes after. */
  lemma {:induction false} ReceivedDump(num: Num, put: Put, datagrams: seq<seq<Byte>>, parts: seq<seq<Message>>,
                                        done: Message, junk: seq<Byte>, family: Family)
    requires SameOrder(num, put) && Carries(put, datagrams, parts, done, junk)
    ensures Collected(num, datagrams).Some?
    ensures FamilySocks(num, datagrams, family) == PartSocks(put, parts, family)
    decreases |parts|
  {
    PartEnds(num, put, parts[0], done, junk, |parts| == 1, datagrams[0]);
    if |parts| == 1 {
      DumpRoundTrip(num, put, parts[0], done, junk, family);
      OnePart(put, parts, family);
    } else {
      CarriesRest(put, datagrams, parts, done, junk);
      ReceivedDump(num, put, datagrams[1..], parts[1..], done, junk, family);
      MorePart(num, put, datagrams, parts[0], family);
    }
  }

  lemma CarriesRest(put: Put, datagrams: seq<seq<Byte>>, parts: seq<seq<Message>>, done: Message, junk: seq<Byte>)
    requires Carries(put, datagrams, parts, done, junk) && |parts| > 1
    ensures Carries(put, datagrams[1..], parts[1..], done, junk)
  {
  }

  lemma OnePart(put: Put, parts: seq<seq<Message>>, family: Family)
    requires |parts| == 1 && AllValid(put, parts[0])
    ensures PartSocks(put, parts, family) == AllSocks(put, parts[0], family)
  {
    assert parts[1..] == [] && PartSocks(put, parts, family) == AllSocks(put, parts[0], family) + [];
  }

  /** A datagram of whole messages adds its sockets to those of the rest. */
  lemma MorePart(num: Num, put: Put, datagrams: seq<seq<Byte>>, ms: seq<Message>, family: Family)
    requires SameOrder(num, put) && AllValid(put, ms) && datagrams != [] && datagrams[0] == MessageBytes(put, ms)
    requires datagrams[0] != [] && !Ends(num, datagrams[0]) && Collected(num, datagrams[1..]).Some?
    ensures Collected(num, datagrams).Some?
    ensures FamilySocks(num, datagrams, family) == AllSocks(put, ms, family) + FamilySocks(num, datagrams[1..], family)
  {
    RoundTrip(num, put, ms, Collected(num, datagrams[1..]).value, family);
  }

  lemma PartEnds(num: Num, put: Put, ms: seq<Message>, done: Message, junk: seq<Byte>, last: bool, datagram: seq<Byte>)
    requires SameOrder(num, put) && AllValid(put, ms) && NoError(ms) && IsDone(put, done)
    requires if last then datagram == MessageBytes(put, ms) + (done.Bytes(put) + junk)
             else ms != [] && datagram == MessageBytes(put, ms)
    ensures Ends(num, datagram) == last && datagram != []
  {
    if last {
      var tail := done.Bytes(put) + junk;
      EndsAfter(num, put, ms, tail);
      var len := 16 + |done.BodyBytes(put)|;
      assert |put(len, 4)| == 4 && |put(NLMSG_DONE, 2)| == 2;
      MessageHeader(num, put, done, tail, len);
    } else {
      EndsAfter(num, put, ms, []);
      assert MessageBytes(put, ms) + [] == MessageBytes(put, ms);
      assert |put(16 + |ms[0].BodyBytes(put)|, 4)| == 4;
    }
  }
}
