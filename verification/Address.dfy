/** The program's two tests for "this peer is local": one on addresses
    (throughput.py), one on the hex text of /proc/net/tcp (feeders.py). */
module Address {
  import opened Bytes

  /** Addresses are byte strings in network order: 4 bytes for IPv4, 16 for IPv6. */
  predicate IsAddress(a: seq<Byte>) {
    |a| == 4 || |a| == 16
  }

  /** The first n bytes are zero. */
  predicate Zeros(a: seq<Byte>, n: nat)
    requires n <= |a|
  {
    forall k :: 0 <= k < n ==> a[k] == 0
  }

  /** ::ffff:a.b.c.d, section 2.5.5.2 of RFC 4291. */
  predicate IsMapped(a: seq<Byte>) {
    |a| == 16 && Zeros(a, 10) && a[10] == 0xff && a[11] == 0xff
  }

  /** 127.0.0.0/8, ::1, or a mapped 127.0.0.0/8. */
  predicate IsLoopback(a: seq<Byte>) {
    if |a| == 4 then a[0] == 127
    else |a| == 16 && ((Zeros(a, 15) && a[15] == 1) || (IsMapped(a) && a[12] == 127))
  }

  /** 0.0.0.0, :: or the mapped form of 0.0.0.0. */
  predicate IsUnspecified(a: seq<Byte>) {
    IsAddress(a) && (Zeros(a, |a|) || (IsMapped(a) && a[12] == a[13] == a[14] == a[15] == 0))
  }

  // ---------------------------------------------------------------- hex text

  function HexDigit(v: int): char
    requires 0 <= v < 16
  {
    if v < 10 then '0' + v as char else 'A' + (v - 10) as char
  }

  function HexValue(c: char): Option<nat> {
    if '0' <= c <= '9' then Some((c - '0') as nat)
    else if 'A' <= c <= 'F' then Some(10 + (c - 'A') as nat)
    else if 'a' <= c <= 'f' then Some(10 + (c - 'a') as nat)
    else None
  }

  function ToHex(s: seq<Byte>): string {
    if s == [] then "" else [HexDigit(s[0] / 16), HexDigit(s[0] % 16)] + ToHex(s[1..])
  }

  const BLANKS: string := " \t\n\r\U{b}\U{c}"

  /** Pairs of hex digits; white space may stand between pairs. */
  function FromHex(s: string): Option<seq<Byte>> {
    if s == "" then Some([])
    else if s[0] in BLANKS then FromHex(s[1..])
    else if |s| == 1 then None
    else match (HexValue(s[0]), HexValue(s[1]), FromHex(s[2..]))
      case (Some(h), Some(l), Some(rest)) =>
        if h < 16 && l < 16 then Some([16 * h + l] + rest) else None
      case _ => None
  }

  /** The bytes of each 4-byte word reversed. */
  function SwapWords(s: seq<Byte>): seq<Byte>
    requires |s| % 4 == 0
  {
    if s == [] then [] else [s[3], s[2], s[1], s[0]] + SwapWords(s[4..])
  }

  /** How a little-endian kernel prints an address in /proc/net/tcp and tcp6. */
  function ProcHex(a: seq<Byte>): string
    requires |a| % 4 == 0
  {
    ToHex(SwapWords(a))
  }

  const ZERO4: seq<Byte> := [0, 0, 0, 0]
  const ZERO16: seq<Byte> := ZERO4 + ZERO4 + ZERO4 + ZERO4
  const LOOPBACK6: seq<Byte> := ZERO4 + ZERO4 + ZERO4 + [0, 0, 0, 1]
  const MAPPED: seq<Byte> := ZERO4 + ZERO4 + [0, 0, 0xff, 0xff]

  predicate HexAddrIsLocal(text: string) {
    match FromHex(text)
    case None => false
    case Some(raw) => RawIsLocal(raw)
  }

  predicate RawIsLocal(raw: seq<Byte>) {
    if |raw| == 4 then
      var ip := [raw[3], raw[2], raw[1], raw[0]];
      ip[0] == 127 || ip == ZERO4
    else if |raw| == 16 then
      SwapTwice(raw);
      NetworkOrderIsLocal(SwapWords(raw))
    else false
  }

  predicate NetworkOrderIsLocal(ip: seq<Byte>)
    requires |ip| == 16
  {
    if ip == ZERO16 || ip == LOOPBACK6 then true
    else if ip[..12] == MAPPED then ip[12] == 127 || ip[12..] == ZERO4
    else false
  }

  // ---------------------------------------------------------------- agreement

  lemma {:induction false} SwapTwice(s: seq<Byte>)
    requires |s| % 4 == 0
    ensures |SwapWords(s)| == |s| && SwapWords(SwapWords(s)) == s
  {
    if s != [] {
      SwapTwice(s[4..]);
      assert SwapWords(s)[4..] == SwapWords(s[4..]);
    }
  }

  lemma HexDigitValue(v: int)
    requires 0 <= v < 16
    ensures HexValue(HexDigit(v)) == Some(v) && HexDigit(v) !in BLANKS
  {
  }

  lemma {:induction false} FromToHex(s: seq<Byte>)
    ensures FromHex(ToHex(s)) == Some(s)
  {
    if s != [] {
      HexDigitValue(s[0] / 16);
      HexDigitValue(s[0] % 16);
      FromToHex(s[1..]);
      var t := ToHex(s);
      assert t[0] == HexDigit(s[0] / 16) && t[1] == HexDigit(s[0] % 16) && t[2..] == ToHex(s[1..]);
      assert 16 * (s[0] / 16) + s[0] % 16 == s[0];
      assert s == [s[0]] + s[1..];
    }
  }

  lemma LocalIPv6(a: seq<Byte>)
    requires |a| == 16
    ensures NetworkOrderIsLocal(a) <==> IsLoopback(a) || IsUnspecified(a)
  {
    assert a == ZERO16 <==> Zeros(a, 16);
    assert a == LOOPBACK6 <==> Zeros(a, 15) && a[15] == 1;
    assert a[..12] == MAPPED <==> IsMapped(a) by {
      assert forall k :: 0 <= k < 12 ==> a[..12][k] == a[k];
    }
    assert a[12..] == ZERO4 <==> a[12] == a[13] == a[14] == a[15] == 0;
  }

  lemma SwapFour(a: seq<Byte>)
    requires |a| == 4
    ensures SwapWords(a) == [a[3], a[2], a[1], a[0]]
  {
    assert a[4..] == [];
  }

  /** On every address the two classifiers agree, except that the /proc one also
      takes the unspecified address for local. */
  lemma ClassifiersAgree(a: seq<Byte>)
    requires IsAddress(a)
    ensures HexAddrIsLocal(ProcHex(a)) <==> IsLoopback(a) || IsUnspecified(a)
  {
    var raw := SwapWords(a);
    assert HexAddrIsLocal(ProcHex(a)) == RawIsLocal(raw) by { FromToHex(raw); }
    SwapTwice(a);
    if |a| == 4 {
      SwapFour(a);
      assert a == [raw[3], raw[2], raw[1], raw[0]];
      assert a == ZERO4 <==> Zeros(a, 4);
    } else {
      LocalIPv6(a);
    }
  }
}
