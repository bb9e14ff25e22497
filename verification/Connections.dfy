/** Socket addresses, their comparison, and the printed names connections are looked up by. */
module Connections {
  import opened Events
  import opened Numbers
  import opened Texts

  type Byte = n: nat | n < 256

  /** An IPv4 address and a port as they lie in memory, in network byte order. */
  datatype IPv4 = IPv4(a: Byte, b: Byte, c: Byte, d: Byte)
  datatype Port = Port(hi: Byte, lo: Byte)
  datatype SockAddr = SockAddr(family: nat, addr: IPv4, port: Port)
  datatype ConnectionPair = ConnectionPair(src: SockAddr, dst: SockAddr)

  const AF_INET: nat := 2

  function Ntohl(ip: IPv4): nat { ((ip.a * 256 + ip.b) * 256 + ip.c) * 256 + ip.d }

  function Ntohs(p: Port): nat { p.hi * 256 + p.lo }

  /** htons of an int: only its low 16 bits are kept. */
  function Htons(n: int): Port { Port((n / 256) % 256, n % 256) }

  lemma PortReadsBack(n: int)
    requires 0 <= n < 65536
    ensures Ntohs(Htons(n)) == n
  {
    assert n / 256 < 256;
  }

  function CmpSockAddrIn(x: SockAddr, y: SockAddr): bool {
    if x.family == y.family then
      if Ntohl(x.addr) == Ntohl(y.addr) then x.port == y.port else false
    else false
  }

  function SamePair(x: ConnectionPair, y: ConnectionPair): bool {
    CmpSockAddrIn(x.src, y.src) && CmpSockAddrIn(x.dst, y.dst)
  }

  /** inet_pton: four decimal numbers below 256, without leading zeros, between dots. */
  function InetPton(s: string): Option<IPv4> {
    var (a, s1) := Cut(s);
    var (b, s2) := Cut(s1);
    var (c, d) := Cut(s2);
    if IsByte(a) && IsByte(b) && IsByte(c) && IsByte(d)
    then Some(IPv4(Value(a), Value(b), Value(c), Value(d)))
    else None
  }

  /** The text before the first dot and the text after it. */
  function Cut(s: string): (string, string) {
    var i := Find(s, '.');
    (s[..i], if i < |s| then s[i + 1..] else "")
  }

  lemma CutJoined(u: string, x: string)
    requires '.' !in u
    ensures Cut(u + ['.'] + x) == (u, x)
  {
    FindFirst(u, '.', x);
    var s := u + ['.'] + x;
    assert s[..|u|] == u && s[|u| + 1..] == x;
  }

  predicate IsByte(s: string) {
    s != "" && AllDigits(s) && (s[0] == '0' ==> |s| == 1) && Value(s) < 256
  }

  // ---- printing ----

  /** inet_ntop: dotted decimal. */
  function Dotted(ip: IPv4): string {
    Decimal(ip.a) + "." + Decimal(ip.b) + "." + Decimal(ip.c) + "." + Decimal(ip.d)
  }

  function IPPortString(sa: SockAddr): string {
    Dotted(sa.addr) + ":" + Decimal(Ntohs(sa.port))
  }

  /** The ports are printed only when the first address says AF_INET; the second address is not asked. */
  function ConnString(src: SockAddr, dst: SockAddr): string {
    var sport := if src.family == AF_INET then Ntohs(src.port) else 0;
    var dport := if src.family == AF_INET then Ntohs(dst.port) else 0;
    Dotted(src.addr) + ":" + Decimal(sport) + "," + Dotted(dst.addr) + ":" + Decimal(dport)
  }

  // ---- reading back ----

  /** The text before the first separator, and the text after it, are determined by the whole. */
  lemma SplitUnique(u: string, x: string, v: string, y: string, c: char)
    requires c !in u && c !in v && u + [c] + x == v + [c] + y
    ensures u == v && x == y
  {
    var s := u + [c] + x;
    assert s[|u|] == c && s[|v|] == c;
    assert forall k | 0 <= k < |u| :: s[k] == u[k];
    assert forall k | 0 <= k < |v| :: s[k] == v[k];
    assert s[..|u|] == u && s[..|v|] == v && s[|u| + 1..] == x && s[|v| + 1..] == y;
  }

  lemma DottedChars(ip: IPv4)
    ensures forall c | c in Dotted(ip) :: IsDigit(c) || c == '.'
  {
    DecimalReadsBack(ip.a);
    DecimalReadsBack(ip.b);
    DecimalReadsBack(ip.c);
    DecimalReadsBack(ip.d);
  }

  lemma DottedInjective(x: IPv4, y: IPv4)
    requires Dotted(x) == Dotted(y)
    ensures x == y
  {
    hide Decimal;
    var xs := Decimal(x.b) + "." + Decimal(x.c) + "." + Decimal(x.d);
    var ys := Decimal(y.b) + "." + Decimal(y.c) + "." + Decimal(y.d);
    assert Dotted(x) == Decimal(x.a) + ['.'] + xs && Dotted(y) == Decimal(y.a) + ['.'] + ys;
    NoSeparator(x.a);
    NoSeparator(y.a);
    SplitUnique(Decimal(x.a), xs, Decimal(y.a), ys, '.');
    var xs', ys' := Decimal(x.c) + "." + Decimal(x.d), Decimal(y.c) + "." + Decimal(y.d);
    assert xs == Decimal(x.b) + ['.'] + xs' && ys == Decimal(y.b) + ['.'] + ys';
    NoSeparator(x.b);
    NoSeparator(y.b);
    SplitUnique(Decimal(x.b), xs', Decimal(y.b), ys', '.');
    NoSeparator(x.c);
    NoSeparator(y.c);
    SplitUnique(Decimal(x.c), Decimal(x.d), Decimal(y.c), Decimal(y.d), '.');
    DecimalInjective(x.a, y.a);
    DecimalInjective(x.b, y.b);
    DecimalInjective(x.c, y.c);
    DecimalInjective(x.d, y.d);
  }

  lemma NoSeparator(n: nat)
    ensures '.' !in Decimal(n) && ':' !in Decimal(n) && ',' !in Decimal(n)
  {
    DecimalReadsBack(n);
  }

  lemma PrintedByte(n: Byte)
    ensures IsByte(Decimal(n)) && Value(Decimal(n)) == n
  {
    DecimalReadsBack(n);
  }

  /** An address printed by inet_ntop is read back by inet_pton. */
  lemma DottedReadsBack(ip: IPv4)
    ensures InetPton(Dotted(ip)) == Some(ip)
  {
    hide Decimal, Value, Cut;
    PrintedByte(ip.a);
    PrintedByte(ip.b);
    PrintedByte(ip.c);
    PrintedByte(ip.d);
    var a, b, c, d := Decimal(ip.a), Decimal(ip.b), Decimal(ip.c), Decimal(ip.d);
    NoSeparator(ip.a);
    NoSeparator(ip.b);
    NoSeparator(ip.c);
    var s2 := c + ['.'] + d;
    var s1 := b + ['.'] + s2;
    assert Dotted(ip) == a + ['.'] + s1;
    CutJoined(a, s1);
    CutJoined(b, s2);
    CutJoined(c, d);
  }

  lemma CutAtDot(s: string)
    ensures var (a, rest) := Cut(s); s == a + ['.'] + rest || (s == a && rest == "")
  {
    var i := Find(s, '.');
    if i == |s| {
      assert s[..i] == s;
    } else {
      assert s == s[..i] + [s[i]] + s[i + 1..];
    }
  }

  lemma ByteIsPrinted(s: string)
    requires IsByte(s)
    ensures s == Decimal(Value(s))
  {
    DecimalOfValue(s);
  }

  /** A text is read as an address exactly when it is the address in dotted decimal. */
  lemma InetPtonIff(s: string, ip: IPv4)
    ensures InetPton(s) == Some(ip) <==> s == Dotted(ip)
  {
    hide Decimal, Value, Cut;
    DottedReadsBack(ip);
    if InetPton(s) == Some(ip) {
      var (a, s1) := Cut(s);
      var (b, s2) := Cut(s1);
      var (c, d) := Cut(s2);
      CutAtDot(s);
      CutAtDot(s1);
      CutAtDot(s2);
      ByteIsPrinted(a);
      ByteIsPrinted(b);
      ByteIsPrinted(c);
      ByteIsPrinted(d);
      NothingToCut();
      assert s == a + ['.'] + (b + ['.'] + (c + ['.'] + d));
    }
  }

  lemma NothingToCut()
    ensures Cut("") == ("", "") && !IsByte("")
  {
  }

  lemma PartInjective(x: IPv4, m: nat, y: IPv4, n: nat)
    ensures Dotted(x) + ":" + Decimal(m) == Dotted(y) + ":" + Decimal(n) <==> x == y && m == n
    ensures ',' !in Dotted(x) + ":" + Decimal(m)
  {
    hide Dotted, Decimal;
    DottedChars(x);
    DottedChars(y);
    NoSeparator(m);
    if Dotted(x) + ":" + Decimal(m) == Dotted(y) + ":" + Decimal(n) {
      SplitUnique(Dotted(x), Decimal(m), Dotted(y), Decimal(n), ':');
      DottedInjective(x, y);
      DecimalInjective(m, n);
    }
  }

  /** The printed end determines address and port, and a connection's name is made of the two printed ends. */
  lemma IPPortStringDetermines(x: SockAddr, y: SockAddr)
    ensures IPPortString(x) == IPPortString(y) <==> x.addr == y.addr && x.port == y.port
    ensures x.family == AF_INET ==> ConnString(x, y) == IPPortString(x) + "," + IPPortString(y)
  {
    hide Dotted, Decimal;
    PartInjective(x.addr, Ntohs(x.port), y.addr, Ntohs(y.port));
    PortsAndAddresses(x, y);
  }

  /** cmpSockAddrIn compares family, address and port, and nothing else. */
  lemma CmpIsEquality(x: SockAddr, y: SockAddr)
    ensures CmpSockAddrIn(x, y) <==> x.family == y.family && x.addr == y.addr && x.port == y.port
  {
    PortsAndAddresses(x, y);
  }

  /** What lies in memory in network byte order is printed so. */
  lemma PrintedEnd()
    ensures IPPortString(SockAddr(2, IPv4(10, 0, 200, 1), Port(0x1F, 0x90))) == "10.0.200.1:8080"
  {
    DecimalAppends(1, 0);
    DecimalAppends(2, 0);
    DecimalAppends(20, 0);
    DecimalAppends(8, 0);
    DecimalAppends(80, 8);
    DecimalAppends(808, 0);
  }

  lemma PortsAndAddresses(x: SockAddr, y: SockAddr)
    ensures Ntohs(x.port) == Ntohs(y.port) <==> x.port == y.port
    ensures Ntohl(x.addr) == Ntohl(y.addr) <==> x.addr == y.addr
  {
  }

  /** What the printed name of a connection determines, whatever the address families are. */
  lemma ConnStringDetermines(s: SockAddr, d: SockAddr, s': SockAddr, d': SockAddr)
    ensures ConnString(s, d) == ConnString(s', d') <==>
            && s.addr == s'.addr && d.addr == d'.addr
            && (if s.family == AF_INET then Ntohs(s.port) else 0)
               == (if s'.family == AF_INET then Ntohs(s'.port) else 0)
            && (if s.family == AF_INET then Ntohs(d.port) else 0)
               == (if s'.family == AF_INET then Ntohs(d'.port) else 0)
  {
    hide Dotted, Decimal, Ntohs;
    var sp := if s.family == AF_INET then Ntohs(s.port) else 0;
    var dp := if s.family == AF_INET then Ntohs(d.port) else 0;
    var sp' := if s'.family == AF_INET then Ntohs(s'.port) else 0;
    var dp' := if s'.family == AF_INET then Ntohs(d'.port) else 0;
    var l, r := Dotted(s.addr) + ":" + Decimal(sp), Dotted(d.addr) + ":" + Decimal(dp);
    var l', r' := Dotted(s'.addr) + ":" + Decimal(sp'), Dotted(d'.addr) + ":" + Decimal(dp');
    assert ConnString(s, d) == l + [','] + r && ConnString(s', d') == l' + [','] + r';
    PartInjective(s.addr, sp, s'.addr, sp');
    PartInjective(s'.addr, sp', s.addr, sp);
    PartInjective(d.addr, dp, d'.addr, dp');
    if ConnString(s, d) == ConnString(s', d') {
      SplitUnique(l, r, l', r', ',');
    }
  }

  /** On IPv4 sockets, two connections have the same name exactly when cmpSockAddrIn says both ends are the same. */
  lemma NamesAgreeWithComparison(x: ConnectionPair, y: ConnectionPair)
    requires x.src.family == x.dst.family == y.src.family == y.dst.family == AF_INET
    ensures ConnString(x.src, x.dst) == ConnString(y.src, y.dst) <==> SamePair(x, y)
  {
    ConnStringDetermines(x.src, x.dst, y.src, y.dst);
    PortsAndAddresses(x.src, y.src);
    PortsAndAddresses(x.dst, y.dst);
  }
}
