/** The file worker thread: loads the files, replays the events file, and releases events to the queue in time order. */
module FileWorkers {
  import opened Events
  import opened Records
  import opened Connections
  import opened Numbers
  import opened EventQueues
  import R = Replay
  import D = Reads
  import M = Merge
  import T = Turns

  /** A line of the connections file with its numbers read; `connID` is None when it is not a number. */
  datatype ConnRecord = ConnRecord(start: int, connID: Option<int>, src: string, sport: int, dst: string, dport: int)

  function Or0(n: Option<int>): int { if n.Some? then n.value else 0 }

  function RealOf(s: string): real { if Stod(s).Some? then Stod(s).value else 0.0 }

  function ConnOf(r: Record): ConnRecord {
    if |r| != 8 then ConnRecord(0, None, "", 0, "", 0)
    else ConnRecord(Or0(Stol(r[1])), Stol(r[2]), Trim(r[3]), Or0(Stoi(r[4])), Trim(r[6]), Or0(Stoi(r[7])))
  }

  function EventOf(r: Record): R.EventRecord {
    if |r| != 8 then R.EventRecord(0, 0, "", 0, 0.0, 0.0)
    else R.EventRecord(Or0(Stol(r[1])), Or0(Stol(r[2])), r[3], Or0(Stoi(r[5])), RealOf(r[6]), RealOf(r[7]))
  }

  function LineOf(r: Record): Option<R.EventRecord> { if |r| == 8 then Some(EventOf(r)) else None }

  function LinesOf(rs: seq<Record>): seq<Option<R.EventRecord>> {
    seq(|rs|, i requires 0 <= i < |rs| => LineOf(rs[i]))
  }

  function EventsOf(rs: seq<Record>): seq<R.EventRecord> {
    seq(|rs|, i requires 0 <= i < |rs| => EventOf(rs[i]))
  }

  /** The numbers loadEvents reads from a record are numbers; stol, stoi and stod would end the program otherwise. */
  predicate ReadableEvent(conns: set<int>, r: Record) {
    |r| == 8 ==>
      && Stol(r[1]).Some? && Stod(r[7]).Some?
      && (Stol(r[1]).value in conns ==> Stol(r[2]).Some? && Stoi(r[5]).Some? && Stod(r[6]).Some?)
  }

  /** Reading keeps the lines that are records. */
  lemma {:induction false} GoodLines(rs: seq<Record>)
    ensures D.Good(LinesOf(rs)) == EventsOf(OfSize(rs, 8))
  {
    hide EventOf;
    if rs != [] {
      GoodLines(rs[1..]);
      assert LinesOf(rs)[1..] == LinesOf(rs[1..]);
      assert OfSize(rs, 8) == (if |rs[0]| == 8 then [rs[0]] else []) + OfSize(rs[1..], 8);
      if |rs[0]| == 8 {
        assert EventsOf([rs[0]] + OfSize(rs[1..], 8)) == [EventOf(rs[0])] + EventsOf(OfSize(rs[1..], 8));
      }
    }
  }

  /** The same for startup, which only forgives an id that is no number. */
  predicate ReadableConn(ips: set<string>, r: Record) {
    && |r| == 8
    && (Stol(r[2]).Some? ==>
          Stoi(r[4]).Some? && Stoi(r[7]).Some? && (Mine(ips, ConnOf(r)) ==> Stol(r[1]).Some?))
  }

  predicate ReadableConns(ips: set<string>, text: string) {
    forall r | r in Load(Open(text), 8, -1).records :: ReadableConn(ips, r)
  }

  /** inet_pton leaves the address alone when the text is none; the memory is taken to be zero then. */
  function AddressOf(s: string): IPv4 { if InetPton(s).Some? then InetPton(s).value else IPv4(0, 0, 0, 0) }

  function MakePair(r: ConnRecord): ConnectionPair {
    var src := SockAddr(AF_INET, AddressOf(r.src), Htons(r.sport));
    ConnectionPair(src, SockAddr(AF_INET, AddressOf(r.dst), Htons(r.dport)))
  }

  predicate Mine(ips: set<string>, r: ConnRecord) {
    r.connID.Some? && (r.src in ips || r.dst in ips)
  }

  /** A connection starts at its time as a client, and its server a second earlier but not before the start. */
  function StartEvent(ips: set<string>, r: ConnRecord): Event
    requires Mine(ips, r)
  {
    var id := r.connID.value;
    if r.src in ips then Event(r.start * 1000, 0, CONNECT, id, -1, -1)
    else Event(if r.start * 1000 - 1000 > 0 then r.start * 1000 - 1000 else 0, 0, SRV_START, id, -1, -1)
  }

  function StartEvents(ips: set<string>, rs: seq<ConnRecord>): multiset<Event> {
    if rs == [] then multiset{}
    else
      var last := rs[|rs| - 1];
      StartEvents(ips, rs[..|rs| - 1]) + (if Mine(ips, last) then multiset{StartEvent(ips, last)} else multiset{})
  }

  /** The addresses listed in the address file, one a line. */
  function ListedIPs(text: string): set<string> {
    set r | r in Load(Open(text), 1, -1).records && |r| == 1 :: Trim(r[0])
  }

  function ConnRecords(rs: seq<Record>): seq<ConnRecord> {
    seq(|rs|, i requires 0 <= i < |rs| => ConnOf(rs[i]))
  }

  /** The records of the connections file: the lines with eight fields. */
  function ListedConns(text: string): seq<ConnRecord> {
    ConnRecords(Load(Open(text), 8, -1).records)
  }

  lemma ConnRecordsStart(rs: seq<Record>)
    ensures ConnRecords(rs[..0]) == []
  {
  }

  lemma ConnRecordsStep(rs: seq<Record>, i: nat)
    requires i < |rs|
    ensures ConnRecords(rs[..i + 1]) == ConnRecords(rs[..i]) + [ConnOf(rs[i])]
  {
    assert rs[..i + 1] == rs[..i] + [rs[i]];
  }

  function MyConns(ips: set<string>, rs: seq<ConnRecord>): set<int> {
    set r | r in rs && Mine(ips, r) :: r.connID.value
  }

  /** Record `i` is the last one with an end here that has this id. */
  ghost predicate LastWith(ips: set<string>, rs: seq<ConnRecord>, id: int, i: nat) {
    && i < |rs| && Mine(ips, rs[i]) && rs[i].connID.value == id
    && forall j | i < j < |rs| && Mine(ips, rs[j]) :: rs[j].connID.value != id
  }

  /** Each id leads to the addresses of the last of its records. */
  ghost predicate PairsFrom(ips: set<string>, rs: seq<ConnRecord>, pairs: map<int, ConnectionPair>) {
    && pairs.Keys == MyConns(ips, rs)
    && forall id | id in pairs :: exists i: nat :: LastWith(ips, rs, id, i) && pairs[id] == MakePair(rs[i])
  }

  lemma OneConnMore(ips: set<string>, rs: seq<ConnRecord>, r: ConnRecord)
    ensures MyConns(ips, rs + [r]) == MyConns(ips, rs) + (if Mine(ips, r) then {r.connID.value} else {})
    ensures StartEvents(ips, rs + [r])
         == StartEvents(ips, rs) + (if Mine(ips, r) then multiset{StartEvent(ips, r)} else multiset{})
  {
    hide StartEvent;
    assert (rs + [r])[..|rs|] == rs;
    assert forall x | x in rs + [r] :: x in rs || x == r;
    assert r in rs + [r];
  }

  lemma PairsOneMore(ips: set<string>, rs: seq<ConnRecord>, r: ConnRecord, pairs: map<int, ConnectionPair>)
    requires PairsFrom(ips, rs, pairs)
    ensures PairsFrom(ips, rs + [r], if Mine(ips, r) then pairs[r.connID.value := MakePair(r)] else pairs)
  {
    hide MakePair, MyConns, StartEvents;
    OneConnMore(ips, rs, r);
    var rs' := rs + [r];
    var pairs' := if Mine(ips, r) then pairs[r.connID.value := MakePair(r)] else pairs;
    forall id | id in pairs' ensures exists i: nat :: LastWith(ips, rs', id, i) && pairs'[id] == MakePair(rs'[i]) {
      if Mine(ips, r) && id == r.connID.value {
        assert LastWith(ips, rs', id, |rs|);
      } else {
        var i: nat :| LastWith(ips, rs, id, i) && pairs[id] == MakePair(rs[i]);
        assert LastWith(ips, rs', id, i);
      }
    }
  }

  /** Connection events never precede the start when no client connection does. */
  lemma {:induction false} StartEventsNonnegative(ips: set<string>, rs: seq<ConnRecord>)
    requires forall r | r in rs && Mine(ips, r) && r.src in ips :: 0 <= r.start
    ensures forall e | e in StartEvents(ips, rs) :: 0 <= e.time
  {
    if rs == [] {
    } else {
      StartEventsNonnegative(ips, rs[..|rs| - 1]);
    }
  }

  /** The records that call for the start event `e`. */
  ghost function Callers(ips: set<string>, rs: seq<ConnRecord>, e: Event): set<nat> {
    set i: nat | i < |rs| && Mine(ips, rs[i]) && StartEvent(ips, rs[i]) == e
  }

  /** Every record with an end here calls for one start event, repeated ids and repeated lines included. */
  lemma {:induction false} StartEventsExactly(ips: set<string>, rs: seq<ConnRecord>, e: Event)
    ensures StartEvents(ips, rs)[e] == |Callers(ips, rs, e)|
  {
    hide StartEvent, Mine;
    if rs == [] {
      assert Callers(ips, rs, e) == {};
    } else {
      var front, n := rs[..|rs| - 1], |rs| - 1;
      StartEventsExactly(ips, front, e);
      assert forall i | 0 <= i < n :: front[i] == rs[i];
      if Mine(ips, rs[n]) && StartEvent(ips, rs[n]) == e {
        assert Callers(ips, rs, e) == Callers(ips, front, e) + {n};
      } else {
        assert Callers(ips, rs, e) == Callers(ips, front, e);
      }
    }
  }

  /** A configured connection is known by the addresses and ports as its line spells them. */
  lemma ConfiguredName(r: ConnRecord, src: IPv4, dst: IPv4)
    requires r.src == Dotted(src) && r.dst == Dotted(dst) && 0 <= r.sport < 65536 && 0 <= r.dport < 65536
    ensures ConnString(MakePair(r).src, MakePair(r).dst)
         == r.src + ":" + Decimal(r.sport) + "," + r.dst + ":" + Decimal(r.dport)
  {
    hide Dotted, Decimal, InetPton, Ntohs, Htons;
    DottedReadsBack(src);
    DottedReadsBack(dst);
    PortReadsBack(r.sport);
    PortReadsBack(r.dport);
  }

  /** A load from a stream that is at a line boundary leaves it at one. */
  lemma NextLines(all: seq<Record>, st: Stream, limit: int)
    requires |Lines(st)| <= |all| && Lines(st) == all[|all| - |Lines(st)|..]
    ensures var l := Load(st, 8, limit);
            && ReadsOff(Lines(st), 8, limit, l.records, Lines(l.stream))
            && |Lines(l.stream)| <= |all| && Lines(l.stream) == all[|all| - |Lines(l.stream)|..]
  {
    hide Lines, Load, Fields, OfSize;
    LoadReadsLines(st, 8, limit);
  }

  /** The lines read and the lines left, when `from` lines were read before. */
  lemma ReadFrom(all: seq<Record>, from: nat, limit: int, batch: seq<Record>, left: seq<Record>)
    requires from <= |all| && ReadsOff(all[from..], 8, limit, batch, left)
    ensures var stop := from + Taken(limit, |all| - from);
            batch == OfSize(all[from..stop], 8) && left == all[stop..]
  {
    var k := Taken(limit, |all| - from);
    assert all[from..][..k] == all[from..from + k] && all[from..][k..] == all[from + k..];
  }

  // ---- what a line of either file says ----

  /** A number of milliseconds printed in seconds, with further digits `more` behind the third of the fraction. */
  function Seconds(ms: nat, more: string): string {
    Decimal(ms / 1000) + "." + (Decimal(ms / 100 % 10) + Decimal(ms / 10 % 10) + Decimal(ms % 10) + more)
  }

  lemma DigitAppends(w: string, d: nat)
    requires AllDigits(w) && d < 10
    ensures |Decimal(d)| == 1 && AllDigits(Decimal(d))
    ensures AllDigits(w + Decimal(d)) && Value(w + Decimal(d)) == 10 * Value(w) + d
  {
    hide Value;
    DecimalReadsBack(d);
    DecimalAppends(1, d);
    var c := Decimal(d)[0];
    assert Decimal(d) == [c];
    ValueAppends("", c);
    assert "" + [c] == [c] && Value("") == 0 by { EmptyValue(); }
    ValueAppends(w, c);
  }

  lemma LastThree(ms: nat)
    ensures 10 * (10 * (10 * (ms / 1000) + ms / 100 % 10) + ms / 10 % 10) + ms % 10 == ms
  {
    assert ms / 100 == 10 * (ms / 1000) + ms / 100 % 10;
    assert ms / 10 == 10 * (ms / 100) + ms / 10 % 10;
  }

  lemma WithoutPoint(ms: nat)
    ensures var w, d := Decimal(ms / 1000), Decimal(ms / 100 % 10) + Decimal(ms / 10 % 10) + Decimal(ms % 10);
            && w != "" && AllDigits(w) && AllDigits(d) && |d| == 3
            && AllDigits(w + d) && Value(w + d) == ms
  {
    hide Decimal, Value;
    var a, b, c := ms / 100 % 10, ms / 10 % 10, ms % 10;
    var w := Decimal(ms / 1000);
    DecimalReadsBack(ms / 1000);
    DigitAppends(w, a);
    DigitAppends(w + Decimal(a), b);
    DigitAppends(w + Decimal(a) + Decimal(b), c);
    LastThree(ms);
    ThreeOnes(w, Decimal(a), Decimal(b), Decimal(c));
  }

  lemma ThreeOnes(w: string, a: string, b: string, c: string)
    requires |a| == |b| == |c| == 1 && AllDigits(a) && AllDigits(b) && AllDigits(c)
    ensures w + (a + b + c) == w + a + b + c && |a + b + c| == 3 && AllDigits(a + b + c)
  {
  }

  lemma RoundedDown(x: real, n: nat)
    requires n as real <= 1000.0 * x < n as real + 1.0
    ensures 0.0 <= x && R.Truncate(x * 1000.0) == n
  {
  }

  /** Seconds are read as the milliseconds that are over, rounded down. */
  lemma SecondsRead(ms: nat, more: string)
    requires AllDigits(more)
    ensures var x := Stod(Seconds(ms, more));
            x.Some? && 0.0 <= x.value && R.Truncate(x.value * 1000.0) == ms
  {
    hide Stod, Decimal, Value, Whole, R.Truncate;
    WithoutPoint(ms);
    var s, d := Decimal(ms / 1000), Decimal(ms / 100 % 10) + Decimal(ms / 10 % 10) + Decimal(ms % 10);
    WholeOfDigits(s + d, "");
    assert s + d + "" == s + d;
    Thousandfold(s, d, more);
    RoundedDown(Stod(s + "." + (d + more)).value, ms);
  }

  lemma SecondsShape(ms: nat, more: string)
    requires AllDigits(more)
    ensures var t := Seconds(ms, more); t != "" && forall c | c in t :: IsDigit(c) || c == '.'
  {
    hide Decimal;
    DecimalIsDigits(ms / 1000);
    DecimalIsDigits(ms / 100 % 10);
    DecimalIsDigits(ms / 10 % 10);
    DecimalIsDigits(ms % 10);
  }

  predicate Plain(f: string) { ',' !in f && '\n' !in f && Trimmed(f) }

  lemma NumberIsPlain(t: string)
    requires t != "" && forall c | c in t :: IsDigit(c) || c == '.'
    ensures Plain(t)
  {
    assert t[0] in t && t[|t| - 1] in t;
  }

  lemma DecimalIsPlain(n: nat)
    ensures Plain(Decimal(n)) && Decimal(n) != ""
  {
    DecimalIsDigits(n);
    NumberIsPlain(Decimal(n));
  }

  /** A line of plain fields, the last not empty, is split into them. */
  lemma PlainLine(r: Record)
    requires |r| == 8 && (forall f | f in r :: Plain(f)) && r[7] != ""
    ensures Join(r) != "" && '\n' !in Join(r) && Fields(Join(r)) == r && Lines(Open(Join(r))) == [r]
  {
    hide Fields, Lines, Join;
    JoinedLineSurvives(r);
    JoinHasNoNewline(r);
    assert Fields("") == [] by { NoFields(); }
    OneLineText(Join(r));
  }

  lemma NoFields()
    ensures Fields("") == []
  {
  }

  /** A printed line of the events file. */
  datatype EventLine = EventLine(
    first: string, id: nat, event: nat, ip: string, fifth: string, value: nat, gap: nat, gapMore: string, start: nat,
    startMore: string)

  predicate WellPrinted(l: EventLine) {
    && Plain(l.first) && Plain(l.ip) && Plain(l.fifth) && AllDigits(l.gapMore) && AllDigits(l.startMore)
    && l.id <= 9223372036854775807 && l.event <= 9223372036854775807 && l.value <= 2147483647
  }

  function EventFields(l: EventLine): Record {
    [l.first, Decimal(l.id), Decimal(l.event), l.ip, l.fifth, Decimal(l.value),
     Seconds(l.gap, l.gapMore), Seconds(l.start, l.startMore)]
  }

  lemma EventLineIs(l: EventLine)
    requires WellPrinted(l)
    ensures var r := EventFields(l);
            Join(r) != "" && Fields(Join(r)) == r && Lines(Open(Join(r))) == [r]
  {
    hide Fields, Lines, Join, Seconds, Decimal, Plain;
    DecimalIsPlain(l.id);
    DecimalIsPlain(l.event);
    DecimalIsPlain(l.value);
    SecondsShape(l.gap, l.gapMore);
    NumberIsPlain(Seconds(l.gap, l.gapMore));
    SecondsShape(l.start, l.startMore);
    NumberIsPlain(Seconds(l.start, l.startMore));
    PlainLine(EventFields(l));
  }

  lemma EventLineReads(l: EventLine)
    requires WellPrinted(l)
    ensures var e := EventOf(EventFields(l));
            && e.connID == l.id && e.eventID == l.event && e.ip == l.ip && e.value == l.value
            && R.Truncate(e.gap * 1000.0) == l.gap && R.Truncate(e.start * 1000.0) == l.start && 0.0 <= e.start
  {
    hide Seconds, Decimal, Stod, Whole;
    Bare(l.id);
    Bare(l.event);
    Bare(l.value);
    SecondsRead(l.gap, l.gapMore);
    SecondsRead(l.start, l.startMore);
  }

  lemma Bare(n: nat)
    ensures Stol(Decimal(n)) == if n <= 9223372036854775807 then Some(n) else None
    ensures Stoi(Decimal(n)) == if n <= 2147483647 then Some(n) else None
  {
    StolOfDecimal(n, "");
    assert Decimal(n) + "" == Decimal(n);
  }

  /** A printed line of the connections file. */
  datatype ConnLine = ConnLine(
    first: string, start: nat, id: nat, src: IPv4, sport: nat, sixth: string, dst: IPv4, dport: nat)

  predicate WellPrintedConn(l: ConnLine) {
    && Plain(l.first) && Plain(l.sixth) && l.start <= 9223372036854775807 && l.id <= 9223372036854775807
    && l.sport < 65536 && l.dport < 65536
  }

  function ConnFields(l: ConnLine): Record {
    [l.first, Decimal(l.start), Decimal(l.id), Dotted(l.src), Decimal(l.sport), l.sixth, Dotted(l.dst),
     Decimal(l.dport)]
  }

  lemma DottedIsPlain(ip: IPv4)
    ensures Plain(Dotted(ip)) && Trim(Dotted(ip)) == Dotted(ip)
  {
    hide Trim, Decimal;
    DottedChars(ip);
    DecimalIsDigits(ip.a);
    NumberIsPlain(Dotted(ip));
    TrimFixesExactlyTrimmed(Dotted(ip));
  }

  lemma ConnLineIs(l: ConnLine)
    requires WellPrintedConn(l)
    ensures var r := ConnFields(l);
            Join(r) != "" && ListedConns(Join(r)) == [ConnOf(r)] && Load(Open(Join(r)), 8, -1).records == [r]
  {
    hide Fields, Lines, Join, Decimal, Dotted, Plain, Load, ConnOf;
    DecimalIsPlain(l.start);
    DecimalIsPlain(l.id);
    DecimalIsPlain(l.sport);
    DecimalIsPlain(l.dport);
    DottedIsPlain(l.src);
    DottedIsPlain(l.dst);
    PlainLine(ConnFields(l));
    LoadAll(Join(ConnFields(l)), 8);
  }

  lemma ConnLineReads(l: ConnLine)
    requires WellPrintedConn(l)
    ensures ConnOf(ConnFields(l))
         == ConnRecord(l.start, Some(l.id), Dotted(l.src), l.sport, Dotted(l.dst), l.dport)
  {
    hide Decimal, Dotted, Stol, Stoi, Trim;
    Bare(l.start);
    Bare(l.id);
    Bare(l.sport);
    Bare(l.dport);
    DottedIsPlain(l.src);
    DottedIsPlain(l.dst);
  }

  /**
   What one line of the connections file says: its third column is the id, the fourth and fifth are the source's address
   and port, the seventh and eighth the destination's, and the second is when it starts, in seconds. A source of ours is
   to connect then, a destination of ours to serve a second earlier, but not before the start.
   */
  lemma ConnLineSays(ips: set<string>, l: ConnLine, pairs: map<int, ConnectionPair>)
    requires WellPrintedConn(l) && PairsFrom(ips, ListedConns(Join(ConnFields(l))), pairs)
    ensures var conns, src, dst := ListedConns(Join(ConnFields(l))), Dotted(l.src), Dotted(l.dst);
            if src in ips || dst in ips then
              && MyConns(ips, conns) == pairs.Keys == {l.id}
              && ConnString(pairs[l.id].src, pairs[l.id].dst)
                 == src + ":" + Decimal(l.sport) + "," + dst + ":" + Decimal(l.dport)
              && StartEvents(ips, conns)
                 == multiset{if src in ips then Event(1000 * l.start, 0, CONNECT, l.id, -1, -1)
                             else Event(if l.start == 0 then 0 else 1000 * l.start - 1000, 0, SRV_START, l.id, -1, -1)}
            else MyConns(ips, conns) == pairs.Keys == {} && StartEvents(ips, conns) == multiset{}
  {
    hide Decimal, Dotted, MakePair, ConnOf, ConnString, ListedConns, Join;
    ConnLineIs(l);
    ConnLineReads(l);
    var r := ConnOf(ConnFields(l));
    ConfiguredName(r, l.src, l.dst);
    OneConnMore(ips, [], r);
    assert [] + [r] == [r];
    if Mine(ips, r) {
      assert l.id in pairs;
      var i: nat :| LastWith(ips, [r], l.id, i) && pairs[l.id] == MakePair([r][i]);
    }
  }

  lemma {:induction false} AllLeft(rs: seq<Record>, texts: seq<string>)
    requires |rs| == |texts| && forall i | 0 <= i < |rs| :: rs[i] == [texts[i]] && Trim(texts[i]) == texts[i]
    ensures (set r | r in rs && |r| == 1 :: Trim(r[0])) == set t | t in texts
  {
    forall t | t in texts ensures exists r :: r in rs && |r| == 1 && Trim(r[0]) == t {
      var i :| 0 <= i < |texts| && texts[i] == t;
      assert rs[i] in rs;
    }
  }

  /** A file of addresses, one a line, lists exactly these. */
  lemma PrintedIPsAreListed(ips: seq<IPv4>)
    ensures var lines := seq(|ips|, i requires 0 <= i < |ips| => [Dotted(ips[i])]);
            ListedIPs(Print(lines)) == set ip | ip in ips :: Dotted(ip)
  {
    hide Dotted, Trim, Load, Print;
    var texts := seq(|ips|, i requires 0 <= i < |ips| => Dotted(ips[i]));
    var lines := seq(|ips|, i requires 0 <= i < |ips| => [Dotted(ips[i])]);
    forall i | 0 <= i < |ips| ensures Printable(lines[i]) && Survives(lines[i]) && Trim(texts[i]) == texts[i] {
      DottedIsPlain(ips[i]);
      DottedNotEmpty(ips[i]);
    }
    assert forall r | r in lines :: Printable(r) && |r| == 1 && Survives(r);
    PrintedListIsReadBack(lines, 1);
    NoLimit(Open(Print(lines)), 1, -1);
    AllLeft(lines, texts);
    assert (set t | t in texts) == set ip | ip in ips :: Dotted(ip) by {
      forall ip | ip in ips ensures Dotted(ip) in texts {
        var i :| 0 <= i < |ips| && ips[i] == ip;
        assert texts[i] == Dotted(ip);
      }
    }
  }

  lemma DottedNotEmpty(ip: IPv4)
    ensures Dotted(ip) != ""
  {
  }

  class FileWorker {
    const text: string            // the events file
    const quota: nat              // maxQueuedFileEvents

    var myIPs: set<string>
    var myConnIDs: set<int>
    var connIDToConnectionPairMap: map<int, ConnectionPair>
    var stream: Stream
    var loopedCount: nat
    var loopDuration: int
    var loopEventCount: nat
    var lastEventTime: int
    var fileEventsAddedCount: nat
    const shortTermHeap: EventHeap
    var outEvents: seq<Event>     // what was passed to outEvents->addEvent, in order

    ghost var loaded: multiset<Event>

    ghost function AllLines(): seq<Record> { Lines(Open(text)) }

    /** The file and the filters as the reads see them. */
    ghost function FileWith(conns: set<int>, ips: set<string>): (f: D.File)
      ensures f.lines == LinesOf(AllLines()) && f.conns == conns && f.ips == ips && f.quota == quota
    {
      D.File(LinesOf(AllLines()), conns, ips, quota)
    }

    ghost function File(): D.File
      reads this`myConnIDs, this`myIPs
    {
      FileWith(myConnIDs, myIPs)
    }

    ghost predicate ReadableEvents(conns: set<int>) {
      forall r | r in AllLines() :: ReadableEvent(conns, r)
    }

    /** The records of the file can be read. */
    ghost predicate Loadable(f: D.File)
      reads this`myConnIDs, this`myIPs
    {
      f == File() && ReadableEvents(f.conns)
    }

    /** The stream has read a whole number of lines. */
    ghost predicate StreamValid()
      reads this`stream
    {
      && |Lines(stream)| <= |AllLines()|
      && Lines(stream) == AllLines()[|AllLines()| - |Lines(stream)|..]
    }

    ghost function Replayed(): R.State
      requires StreamValid()
      reads this`stream, this`loopedCount, this`loopDuration, this`lastEventTime, this`loopEventCount
    {
      R.State(|AllLines()| - |Lines(stream)|, loopedCount, loopDuration, lastEventTime, loopEventCount, [])
    }

    ghost function Merged(): M.Merge
      reads this`outEvents, this`lastEventTime, this`loaded, shortTermHeap
    {
      M.Merge(shortTermHeap.events, outEvents, lastEventTime, loaded)
    }

    /** The fields agree with a replay state. */
    ghost predicate At(r: R.State)
      reads this`loopedCount, this`loopDuration, this`lastEventTime, this`loopEventCount
    {
      loopedCount == r.looped && loopDuration == r.duration && lastEventTime == r.last && loopEventCount == r.count
    }

    constructor (text: string, quota: nat)
      ensures this.text == text && this.quota == quota
      ensures StreamValid() && Replayed() == R.FRESH && Merged() == M.Merge(multiset{}, [], 0, multiset{})
      ensures fresh(shortTermHeap) && fileEventsAddedCount == 0
      ensures myIPs == {} && myConnIDs == {} && connIDToConnectionPairMap == map[]
    {
      this.text, this.quota := text, quota;
      myIPs, myConnIDs, connIDToConnectionPairMap := {}, {}, map[];
      stream := Open(text);
      loopedCount, loopDuration, loopEventCount, lastEventTime, fileEventsAddedCount := 0, 0, 0, 0, 0;
      shortTermHeap := new EventHeap();
      outEvents := [];
      loaded := multiset{};
    }

    /** The heap holds what it held at the start of the call and the events loaded since. */
    ghost predicate Holds(heap0: multiset<Event>, loaded0: multiset<Event>, events: seq<Event>)
      reads this`loaded, shortTermHeap
    {
      shortTermHeap.events == heap0 + multiset(events) && loaded == loaded0 + multiset(events)
    }

    method PutInHeap(e: Event, ghost heap0: multiset<Event>, ghost loaded0: multiset<Event>, ghost events: seq<Event>)
      requires Holds(heap0, loaded0, events)
      modifies this`loaded, shortTermHeap
      ensures Holds(heap0, loaded0, events + [e])
    {
      assert multiset(events + [e]) == multiset(events) + multiset{e};
      shortTermHeap.AddEvent(e);
      loaded := loaded + multiset{e};
    }

    /** The body of the record loop of loadEvents. */
    method ProcessRecord(record: Record, eventsProduced: nat,
                         ghost src: R.Source, ghost r: R.State,
                         ghost heap0: multiset<Event>, ghost loaded0: multiset<Event>)
      returns (produced: nat)
      requires src.conns == myConnIDs && src.ips == myIPs && At(r) && Holds(heap0, loaded0, r.events)
      modifies this`lastEventTime, this`loopEventCount, this`loaded, shortTermHeap
      ensures var r' := R.Process(src, EventOf(record), r); At(r') && Holds(heap0, loaded0, r'.events)
      ensures produced == eventsProduced + (if R.Passes(src, EventOf(record)) then 1 else 0)
    {
      hide R.Truncate, EventOf, R.Process, Holds;
      produced := eventsProduced;
      var rec := EventOf(record);
      R.ProcessIs(src, rec, r);
      if rec.connID in myConnIDs {
        var e := Event(
          R.Truncate(rec.start * 1000.0) + loopedCount * loopDuration, R.Truncate(rec.gap * 1000.0),
          if rec.ip == "SEND" then SEND else RECV, rec.connID, rec.eventID, rec.value);
        if rec.ip in myIPs {
          PutInHeap(e, heap0, loaded0, r.events);
          produced := produced + 1;
          if loopedCount == 0 {
            loopEventCount := loopEventCount + 1;
          }
        }
      }
      lastEventTime := R.Truncate(rec.start * 1000.0 + (loopedCount * loopDuration) as real);
    }

    /** The record loop of loadEvents over one batch. */
    method ProcessBatch(batch: seq<Record>, eventsProduced: nat,
                        ghost src: R.Source, ghost r: R.State,
                        ghost heap0: multiset<Event>, ghost loaded0: multiset<Event>)
      returns (produced: nat)
      requires src.conns == myConnIDs && src.ips == myIPs && At(r) && Holds(heap0, loaded0, r.events)
      modifies this`lastEventTime, this`loopEventCount, this`loaded, shortTermHeap
      ensures var r' := D.ProcessAll(src, EventsOf(batch), r); At(r') && Holds(heap0, loaded0, r'.events)
      ensures produced == eventsProduced + D.Count(src, EventsOf(batch))
    {
      hide R.Process, R.Passes, D.ProcessAll, D.Count, At, Holds, EventOf;
      produced := eventsProduced;
      D.NoRecords(src, r);
      assert EventsOf(batch[..0]) == [];
      var i := 0;
      while i != |batch|
        invariant 0 <= i <= |batch|
        invariant var r' := D.ProcessAll(src, EventsOf(batch[..i]), r); At(r') && Holds(heap0, loaded0, r'.events)
        invariant produced == eventsProduced + D.Count(src, EventsOf(batch[..i]))
      {
        ghost var recs := EventsOf(batch[..i]);
        D.OneRecordMore(src, recs, EventOf(batch[i]), r);
        assert EventsOf(batch[..i + 1]) == recs + [EventOf(batch[i])];
        produced := ProcessRecord(batch[i], produced, src, D.ProcessAll(src, recs, r), heap0, loaded0);
        i := i + 1;
      }
      assert batch[..i] == batch;
    }

    /** One read of the events file: the records among the next lines, at most `limit` of these when it is positive. */
    method ReadBatch(limit: int) returns (batch: seq<Record>)
      requires StreamValid()
      modifies this`stream
      ensures StreamValid() && ReadsOff(old(Lines(stream)), 8, limit, batch, Lines(stream))
    {
      hide Lines, Load, AllLines, Fields, ReadsOff;
      var st := stream;
      NextLines(AllLines(), st, limit);
      batch, stream := LoadFile(st, 8, limit);
    }

    /** The end of the file, or what is taken for it: back to its first line, with the times of the next pass. */
    method StartOver(ghost r: R.State)
      requires At(r)
      modifies this`stream, this`loopedCount, this`loopDuration
      ensures StreamValid() && Lines(stream) == AllLines()[0..] && At(R.Wrap(r))
    {
      hide Lines, Open;
      stream := Open(text);
      if loopedCount == 0 {
        loopDuration := lastEventTime;
      }
      loopedCount := loopedCount + 1;
    }

    /** Between two turns: the batch that is read comes from position r.pos, and the stream is behind it. */
    ghost predicate Ready(batch: seq<Record>, eventsProduced: nat, r: R.State)
      reads this`stream, this`loopedCount, this`loopDuration, this`lastEventTime, this`loopEventCount
    {
      && StreamValid() && At(r) && r.pos <= |AllLines()| && eventsProduced <= quota
      && var stop := r.pos + Taken(quota - eventsProduced, |AllLines()| - r.pos);
         batch == OfSize(AllLines()[r.pos..stop], 8) && Lines(stream) == AllLines()[stop..]
    }

    /** The read at the end of a turn; without a limit, as nothing more is needed, it reads the rest of the file. */
    method ReadNext(eventsProduced: nat, ghost r: R.State) returns (batch: seq<Record>)
      requires StreamValid() && At(r) && r.pos <= |AllLines()| && eventsProduced <= quota
      requires Lines(stream) == AllLines()[r.pos..]
      modifies this`stream
      ensures Ready(batch, eventsProduced, r)
    {
      hide Lines, AllLines, OfSize, Taken, ReadsOff;
      batch := ReadBatch(quota - eventsProduced);
      ReadFrom(AllLines(), r.pos, quota - eventsProduced, batch, Lines(stream));
    }

    /** What the reads see of the batch that is ready. */
    lemma ReadyMeans(batch: seq<Record>, eventsProduced: nat, f: D.File, r: R.State)
      requires f.lines == LinesOf(AllLines()) && Ready(batch, eventsProduced, r) && eventsProduced < quota
      ensures StreamValid() && At(r) && r.pos <= |f.lines| == |AllLines()|
      ensures EventsOf(batch) == D.Batch(f, quota - eventsProduced, r.pos)
      ensures Lines(stream) == AllLines()[D.Stop(f, quota - eventsProduced, r.pos)..]
    {
      hide AllLines, Lines, OfSize, EventOf;
      var stop := D.Stop(f, quota - eventsProduced, r.pos);
      GoodLines(AllLines()[r.pos..stop]);
      assert f.lines[r.pos..stop] == LinesOf(AllLines()[r.pos..stop]);
    }

    /** One turn of the outer loop of loadEvents. */
    method Turn(batch: seq<Record>, eventsProduced: nat,
                ghost f: D.File, ghost r: R.State, ghost heap0: multiset<Event>, ghost loaded0: multiset<Event>)
      returns (batch': seq<Record>, produced: nat, ghost r': R.State)
      requires Loadable(f) && Ready(batch, eventsProduced, r) && eventsProduced < quota
      requires Holds(heap0, loaded0, r.events)
      modifies this`stream, this`loopedCount, this`loopDuration, this`lastEventTime, this`loopEventCount, this`loaded,
               shortTermHeap
      ensures Ready(batch', produced, r') && Holds(heap0, loaded0, r'.events)
      ensures r.pos <= |f.lines| && produced <= quota
      ensures (quota - produced, r') == D.Turn(f, quota - eventsProduced, r)
    {
      hide Lines, AllLines, OfSize, Taken, Ready, Holds, At, StreamValid, EventOf, ReadableEvents,
           R.Wrap, D.Good, D.Plain, D.ProcessAll, D.Count, D.Batch;
      ReadyMeans(batch, eventsProduced, f, r);
      ghost var src, stop := D.Plain(f), D.Stop(f, quota - eventsProduced, r.pos);
      PlainIs(f);
      produced := eventsProduced;
      if |batch| == 0 {
        StartOver(r);
        r' := R.Wrap(r);
        WrapIs(r);
      } else {
        produced := ProcessBatch(batch, eventsProduced, src, r, heap0, loaded0);
        r' := D.ProcessAll(src, EventsOf(batch), r).(pos := stop);
        SamePlace(D.ProcessAll(src, EventsOf(batch), r), stop);
      }
      batch' := ReadNext(produced, r');
    }

    lemma PlainIs(f: D.File)
      ensures D.Plain(f).conns == f.conns && D.Plain(f).ips == f.ips && D.Plain(f).quota == f.quota
    {
    }

    lemma WrapIs(r: R.State)
      ensures R.Wrap(r).pos == 0 && R.Wrap(r).events == r.events
    {
    }

    /** The position is the stream's and no field of its own. */
    lemma SamePlace(r: R.State, pos: nat)
      ensures At(r.(pos := pos)) <==> At(r)
    {
    }

    /** The first read of a call. */
    method FirstBatch(ghost f: D.File) returns (batch: seq<Record>)
      requires Loadable(f) && StreamValid()
      modifies this`stream
      ensures Ready(batch, 0, old(Replayed())) && old(Replayed()).pos <= |f.lines|
    {
      hide Lines, AllLines, OfSize, Taken, ReadableEvents;
      batch := ReadNext(0, Replayed());
    }

    lemma CallIsPull(f: D.File)
      requires Loadable(f) && StreamValid()
      requires Replayed().pos <= |f.lines| && D.Going(f, quota, Replayed().pos)
      ensures D.Call(f, Replayed()) == D.Pull(f, quota, Replayed()).(pos := |AllLines()|)
      ensures Holds(shortTermHeap.events, loaded, Replayed().events)
    {
      hide D.Pull, D.Going;
      assert Replayed().(events := []) == Replayed();
    }

    lemma LastRead(batch: seq<Record>, r: R.State)
      requires Ready(batch, quota, r)
      ensures StreamValid() && Replayed() == r.(pos := |AllLines()|, events := [])
    {
    }

    /**
     Loads `quota` events that pass the filters, whatever batches that takes and however often the file has to be
     started over, and leaves the stream at its end. What it asks of the file is just that the loop ends.
     */
    method LoadEvents()
      requires Loadable(File()) && StreamValid()
      requires Replayed().pos <= |File().lines| && D.Going(File(), quota, Replayed().pos)
      modifies this`stream, this`loopedCount, this`loopDuration, this`lastEventTime, this`loopEventCount, this`loaded,
               shortTermHeap
      ensures StreamValid()
      ensures Replayed() == D.Call(File(), old(Replayed())).(events := [])
      ensures Holds(old(shortTermHeap.events), old(loaded), D.Call(File(), old(Replayed())).events)
    {
      hide *;
      ghost var f, heap0, loaded0, r := File(), shortTermHeap.events, loaded, Replayed();
      FileIs();
      CallIsPull(f);
      var eventsProduced := 0;
      var eventData := FirstBatch(f);
      while eventsProduced < quota
        invariant eventsProduced <= quota && r.pos <= |f.lines| && D.Going(f, quota - eventsProduced, r.pos)
        invariant Ready(eventData, eventsProduced, r) && Holds(heap0, loaded0, r.events)
        invariant D.Pull(f, quota - eventsProduced, r) == D.Pull(f, quota, old(Replayed()))
        decreases quota - eventsProduced, D.Dry(f, quota - eventsProduced, r.pos), |f.lines| - r.pos
      {
        D.TurnProgress(f, quota - eventsProduced, r);
        eventData, eventsProduced, r := Turn(eventData, eventsProduced, f, r, heap0, loaded0);
      }
      D.PullDone(f, r);
      LastRead(eventData, r);
    }

    /** The one record of an events file of one line. */
    lemma OneRecord(l: EventLine)
      requires WellPrinted(l) && text == Join(EventFields(l))
      ensures |File().lines| == 1 && D.Good(File().lines) == [EventOf(EventFields(l))]
      ensures File().lines == [Some(EventOf(EventFields(l)))]
    {
      hide EventOf, Join, Lines, Seconds;
      EventLineIs(l);
      assert File().lines[0] == Some(EventOf(EventFields(l)));
      D.OneLine(File().lines);
    }

    /**
     What one line of the events file says: its second column is the connection, the third the event, the fourth the
     address, the sixth the value, the seventh the time since the last event and the eighth the time since the start,
     in seconds. If connection and address are ours it loads an event with the milliseconds of both times that are
     over, the latter later by the passes before; whether it does or not, that time is the new watermark.
     */
    lemma EventLineSays(l: EventLine, r: R.State)
      requires WellPrinted(l) && text == Join(EventFields(l)) && 0 <= r.looped * r.duration
      ensures var r' := D.ProcessAll(D.Plain(File()), D.Good(File().lines), r);
              var time := l.start + r.looped * r.duration;
              && r'.last == time && r'.looped == r.looped && r'.duration == r.duration
              && if l.id in myConnIDs && l.ip in myIPs then
                   && r'.events == r.events
                                   + [Event(time, l.gap, if l.ip == "SEND" then SEND else RECV, l.id, l.event, l.value)]
                   && r'.count == (if r.looped == 0 then r.count + 1 else r.count)
                 else r'.events == r.events && r'.count == r.count
    {
      hide R.Truncate, EventOf, Join, EventFields, D.Good, AllLines;
      OneRecord(l);
      EventLineReads(l);
      var e := EventOf(EventFields(l));
      R.TruncateAddsUp(e.start * 1000.0, r.looped * r.duration);
      D.OneRecordMore(D.Plain(File()), [], e, r);
      assert [] + [e] == [e];
    }

    /** A call that is to load one event, on a new worker, loads just that of the line. */
    lemma OneLineCall(l: EventLine)
      requires WellPrinted(l) && text == Join(EventFields(l)) && quota == 1 && l.id in myConnIDs && l.ip in myIPs
      ensures D.Returns(File())
      ensures var r := D.After(File(), 1);
              && r.events == [Event(l.start, l.gap, if l.ip == "SEND" then SEND else RECV, l.id, l.event, l.value)]
              && r.last == l.start && r.looped == 0 && r.count == 1
    {
      hide EventOf, Join, EventFields, AllLines, FileWith;
      OneRecord(l);
      EventLineReads(l);
      EventLineSays(l, R.FRESH);
      var f, e := File(), EventOf(EventFields(l));
      FileIs();
      assert f.lines[0..1] == f.lines;
      D.OneCounted(D.Plain(f), e);
      assert D.Batch(f, 1, 0) == [e];
      D.NothingNeeded(f, 1);
      assert D.LapNeed(f, 1, 0) == 0;
      D.NextIsCall(f, 0);
      D.TurnProgress(f, 1, R.FRESH);
      D.PullDone(f, D.Turn(f, 1, R.FRESH).1);
    }

    /**
     After startup has read a connections file of one line: the id, the name of the pair and the start event are those
     the line says.
     */
    lemma SeededByLine(l: ConnLine, heap0: multiset<Event>, loaded0: multiset<Event>)
      requires WellPrintedConn(l) && Seeded(ListedConns(Join(ConnFields(l))), heap0, loaded0)
      ensures var src, dst := Dotted(l.src), Dotted(l.dst);
              if src in myIPs || dst in myIPs then
                && myConnIDs == {l.id} && l.id in connIDToConnectionPairMap
                && ConnString(connIDToConnectionPairMap[l.id].src, connIDToConnectionPairMap[l.id].dst)
                   == src + ":" + Decimal(l.sport) + "," + dst + ":" + Decimal(l.dport)
                && shortTermHeap.events == heap0 + multiset{
                     if src in myIPs then Event(1000 * l.start, 0, CONNECT, l.id, -1, -1)
                     else Event(if l.start == 0 then 0 else 1000 * l.start - 1000, 0, SRV_START, l.id, -1, -1)}
              else myConnIDs == {} && shortTermHeap.events == heap0
    {
      hide Decimal, Dotted, ConnString, ListedConns, Join, MyConns, StartEvents, PairsFrom;
      ConnLineSays(myIPs, l, connIDToConnectionPairMap);
    }

    lemma FileIs()
      ensures |File().lines| == |AllLines()| && File().quota == quota
    {
    }

    /** startup, up to its call of loadEvents: reads the addresses and the connections, and seeds the heap. */
    method SetUp(ipText: string, connText: string)
      requires ReadableConns(ListedIPs(ipText), connText)
      modifies this`myIPs, this`myConnIDs, this`connIDToConnectionPairMap, this`loaded, shortTermHeap
      ensures myIPs == ListedIPs(ipText)
      ensures Seeded(ListedConns(connText), old(shortTermHeap.events), old(loaded))
    {
      ReadIPs(ipText);
      SeedConnections(connText);
    }

    method ReadIPs(ipText: string)
      modifies this`myIPs
      ensures myIPs == ListedIPs(ipText)
    {
      hide Load, Trim;
      myIPs := {};
      LoadedSizes(Open(ipText), 1, -1);
      var ipData, _ := LoadFile(Open(ipText), 1, -1);
      var i := 0;
      while i != |ipData|
        invariant 0 <= i <= |ipData|
        invariant myIPs == set r | r in ipData[..i] && |r| == 1 :: Trim(r[0])
      {
        assert ipData[..i + 1] == ipData[..i] + [ipData[i]];
        myIPs := myIPs + {Trim(ipData[i][0])};
        i := i + 1;
      }
      assert ipData[..i] == ipData;
    }

    /** The configuration and the heap after the connection records `seen`. */
    ghost predicate Seeded(seen: seq<ConnRecord>, heap0: multiset<Event>, loaded0: multiset<Event>)
      reads this`myIPs, this`myConnIDs, this`connIDToConnectionPairMap, this`loaded, shortTermHeap
    {
      && myConnIDs == MyConns(myIPs, seen)
      && PairsFrom(myIPs, seen, connIDToConnectionPairMap)
      && shortTermHeap.events == heap0 + StartEvents(myIPs, seen)
      && loaded == loaded0 + StartEvents(myIPs, seen)
    }

    /** The body of the connection loop of startup. */
    method SeedConnection(r: ConnRecord, ghost seen: seq<ConnRecord>,
                          ghost heap0: multiset<Event>, ghost loaded0: multiset<Event>)
      requires Seeded(seen, heap0, loaded0)
      modifies this`myConnIDs, this`connIDToConnectionPairMap, this`loaded, shortTermHeap
      ensures Seeded(seen + [r], heap0, loaded0)
    {
      hide MakePair, StartEvent, StartEvents, MyConns, PairsFrom;
      PairsOneMore(myIPs, seen, r, connIDToConnectionPairMap);
      OneConnMore(myIPs, seen, r);
      if r.connID.None? { return; }
      if r.src in myIPs || r.dst in myIPs {
        myConnIDs := myConnIDs + {r.connID.value};
        connIDToConnectionPairMap := connIDToConnectionPairMap[r.connID.value := MakePair(r)];
        var e := StartEvent(myIPs, r);
        shortTermHeap.AddEvent(e);
        loaded := loaded + multiset{e};
      }
    }

    lemma NothingSeeded()
      requires myConnIDs == {} && connIDToConnectionPairMap == map[]
      ensures Seeded([], shortTermHeap.events, loaded)
    {
    }

    method SeedConnections(connText: string)
      requires ReadableConns(myIPs, connText)
      modifies this`myConnIDs, this`connIDToConnectionPairMap, this`loaded, shortTermHeap
      ensures Seeded(ListedConns(connText), old(shortTermHeap.events), old(loaded))
    {
      hide Load, Seeded, ConnRecords, ConnOf;
      ghost var heap0, loaded0 := shortTermHeap.events, loaded;
      myConnIDs, connIDToConnectionPairMap := {}, map[];
      NothingSeeded();
      var connData, _ := LoadFile(Open(connText), 8, -1);
      ConnRecordsStart(connData);
      var i := 0;
      while i != |connData|
        invariant 0 <= i <= |connData|
        invariant Seeded(ConnRecords(connData[..i]), heap0, loaded0)
      {
        ConnRecordsStep(connData, i);
        SeedConnection(ConnOf(connData[i]), ConnRecords(connData[..i]), heap0, loaded0);
        i := i + 1;
      }
      assert connData[..i] == connData;
    }

    /** The thread as a sequence of turns sees it, after `n` calls of loadEvents. */
    ghost function AsWorker(n: nat): T.Worker
      reads this`myConnIDs, this`myIPs, this`outEvents, this`lastEventTime, this`loaded, this`fileEventsAddedCount,
            shortTermHeap
    {
      T.Worker(File(), n, Merged(), fileEventsAddedCount)
    }

    /** Between two calls of loadEvents, of which there were `n`. */
    ghost predicate Replaying(n: nat)
      reads this`myConnIDs, this`myIPs, this`stream, this`loopedCount, this`loopDuration, this`lastEventTime,
            this`loopEventCount
    {
      && StreamValid() && Loadable(File()) && D.Returns(File())
      && Replayed() == D.After(File(), n).(events := [])
    }

    /** What holds between two turns of the thread, whose heap was first filled with `seeds`. */
    ghost predicate Running(seeds: multiset<Event>, n: nat)
      reads this, shortTermHeap
    {
      Replaying(n) && T.Accounts(AsWorker(n), seeds)
    }

    lemma CallIsNext(n: nat)
      requires Replaying(n)
      ensures Replayed().pos <= |File().lines| && D.Going(File(), quota, Replayed().pos)
      ensures D.Call(File(), Replayed()) == D.After(File(), n + 1)
    {
      hide D.Pull, D.After, D.Returns, D.Going;
      D.NextIsCall(File(), n);
    }

    /** loadEvents on a replayable file: it loads what the replay loads next. */
    method LoadNext(ghost n: nat)
      requires Replaying(n)
      modifies this`stream, this`loopedCount, this`loopDuration, this`lastEventTime, this`loopEventCount, this`loaded,
               shortTermHeap
      ensures Replaying(n + 1) && lastEventTime == D.After(File(), n + 1).last
      ensures Holds(old(shortTermHeap.events), old(loaded), D.After(File(), n + 1).events)
    {
      hide D.Call, D.After, D.Returns, D.LoadedBy, Lines, AllLines, FileWith, Holds;
      CallIsNext(n);
      LoadEvents();
    }

    /** loadEvents as the thread uses it. */
    method Refill(ghost seeds: multiset<Event>, ghost n: nat)
      requires Running(seeds, n)
      modifies this`stream, this`loopedCount, this`loopDuration, this`lastEventTime, this`loopEventCount, this`loaded,
               shortTermHeap
      ensures Running(seeds, n + 1) && AsWorker(n + 1) == T.Load(old(AsWorker(n)))
    {
      hide D.After, D.Returns, Lines, AllLines, FileWith, T.Accounts, StreamValid;
      T.LoadAccounts(AsWorker(n), seeds);
      LoadNext(n);
    }

    /**
     startup of a new worker, for an events file that can be replayed under the addresses and connections listed: the
     heap holds the start events of the connections and what the first call of loadEvents loads, and the thread is
     ready to run.
     */
    method Startup(ipText: string, connText: string)
      requires StreamValid() && Replayed() == R.FRESH && Merged() == M.Merge(multiset{}, [], 0, multiset{})
      requires fileEventsAddedCount == 0
      requires ReadableConns(ListedIPs(ipText), connText)
      requires ReadableEvents(MyConns(ListedIPs(ipText), ListedConns(connText)))
      requires D.Returns(FileWith(MyConns(ListedIPs(ipText), ListedConns(connText)), ListedIPs(ipText)))
      modifies this, shortTermHeap
      ensures myIPs == ListedIPs(ipText) && myConnIDs == MyConns(myIPs, ListedConns(connText))
      ensures PairsFrom(myIPs, ListedConns(connText), connIDToConnectionPairMap)
      ensures Running(StartEvents(myIPs, ListedConns(connText)), 1)
      ensures AsWorker(1) == T.Begin(File(), StartEvents(myIPs, ListedConns(connText)))
    {
      hide Lines, AllLines, FileWith, MyConns, PairsFrom, StartEvents, ListedConns, ListedIPs, D.After,
           D.Returns, T.Accounts, StreamValid, ReadableEvents;
      SetUp(ipText, connText);
      D.AfterNone(File());
      LoadNext(0);
      ghost var seeds := StartEvents(myIPs, ListedConns(connText));
      T.BeginAccounts(File(), seeds);
      assert shortTermHeap.events == seeds + multiset(D.After(File(), 1).events) == loaded;
    }

    /** `t` is what the heap's nextEventTime returns. */
    ghost predicate NextIs(t: int)
      reads shortTermHeap
    {
      if shortTermHeap.events == multiset{} then t == -1
      else exists e :: IsMin(e, shortTermHeap.events) && e.time == t
    }

    /** After `es` were released by a drain that began with `m0` and `added0`. */
    ghost predicate Released(m0: M.Merge, added0: nat, es: seq<Event>)
      reads this`outEvents, this`lastEventTime, this`loaded, this`fileEventsAddedCount, shortTermHeap
    {
      M.AllDue(m0, es) && Merged() == M.ReleaseAll(m0, es) && fileEventsAddedCount == added0 + |es|
    }

    /** The body of the drain loop, up to its test of the count: the heap's next event goes to the queue. */
    method ReleaseNext(nextET: int, ghost m0: M.Merge, ghost added0: nat, ghost es: seq<Event>)
      returns (ghost es': seq<Event>)
      requires NextIs(nextET) && -1 < nextET <= lastEventTime && Released(m0, added0, es)
      modifies this`outEvents, this`fileEventsAddedCount, shortTermHeap
      ensures Released(m0, added0, es') && |es'| == |es| + 1
      ensures |shortTermHeap.events| < |old(shortTermHeap.events)|
    {
      hide M.ReleaseAll, M.AllDue;
      ghost var before := Merged();
      var e := shortTermHeap.NextEvent();
      M.OneMore(m0, es, e.value);
      es' := es + [e.value];
      outEvents := outEvents + [e.value];
      fileEventsAddedCount := fileEventsAddedCount + 1;
      assert Merged() == M.Release(before, e.value);
    }

    lemma StoppedIsDrained(nextET: int)
      requires NextIs(nextET) && !(-1 < nextET <= lastEventTime)
      ensures M.Drained(Merged())
    {
      M.NothingDueMeansDrained(Merged());
    }

    /** Releases events in time order up to the watermark; stops early when it has added more than `quota` events. */
    method Drain() returns (ghost es: seq<Event>)
      requires fileEventsAddedCount <= quota
      modifies this`outEvents, this`fileEventsAddedCount, shortTermHeap
      ensures M.Drains(quota, old(Merged()), old(fileEventsAddedCount), es)
      ensures Merged() == M.ReleaseAll(old(Merged()), es)
      ensures fileEventsAddedCount == M.CountAfter(quota, old(fileEventsAddedCount), |es|)
    {
      hide M.ReleaseAll, M.AllDue, M.Drained, NextIs;
      es := [];
      ghost var m0, added0 := Merged(), fileEventsAddedCount;
      NothingReleasedYet();
      var nextET := shortTermHeap.NextEventTime();
      HeapNextIs(nextET);
      while nextET <= lastEventTime && nextET > -1
        invariant Released(m0, added0, es) && NextIs(nextET) && added0 + |es| <= quota
        decreases |shortTermHeap.events|
      {
        es := ReleaseNext(nextET, m0, added0, es);
        if fileEventsAddedCount > quota {
          fileEventsAddedCount := 0;
          return;
        }
        nextET := shortTermHeap.NextEventTime();
        HeapNextIs(nextET);
      }
      StoppedIsDrained(nextET);
    }

    lemma NothingReleasedYet()
      ensures Released(Merged(), fileEventsAddedCount, [])
    {
    }

    lemma HeapNextIs(t: int)
      requires shortTermHeap.events == multiset{} ==> t == -1
      requires shortTermHeap.events != multiset{} ==> exists e :: IsMin(e, shortTermHeap.events) && e.time == t
      ensures NextIs(t)
    {
    }

    /** One turn of the thread's loop: a drain, and loadEvents when the handler's notification has arrived. */
    method Turnover(wake: bool, ghost seeds: multiset<Event>, ghost n: nat) returns (ghost t: T.Turn)
      requires Running(seeds, n)
      modifies this`stream, this`loopedCount, this`loopDuration, this`lastEventTime, this`loopEventCount, this`loaded,
               this`outEvents, this`fileEventsAddedCount, shortTermHeap
      ensures t.wake == wake && T.Possible(old(AsWorker(n)), t)
      ensures var n' := if wake then n + 1 else n;
              Running(seeds, n') && AsWorker(n') == T.Do(old(AsWorker(n)), t)
    {
      hide D.After, D.Returns, D.LoadedBy, StreamValid, ReadableEvents, FileWith, M.ReleaseAll, M.Drains,
           T.Load, M.Conserved;
      ghost var w := AsWorker(n);
      ghost var es := Drain();
      t := T.Turn(es, wake);
      assert AsWorker(n) == T.AfterDrain(w, es);
      T.DoAccounts(w, seeds, T.Turn(es, false));
      if wake {
        Refill(seeds, n);
      }
    }

    /**
     The thread: `wakes` says after which drains the handler's notification arrives. It goes through exactly these
     turns; over the whole run what was pushed to the queue and what waits in the heap are together the start events
     and what the calls of loadEvents loaded, one call for each notification; and what was pushed is in time order if
     the file keeps up.
     */
    method Loop(wakes: seq<bool>, ghost seeds: multiset<Event>, ghost n: nat) returns (ghost turns: seq<T.Turn>)
      requires Running(seeds, n)
      modifies this`stream, this`loopedCount, this`loopDuration, this`lastEventTime, this`loopEventCount, this`loaded,
               this`outEvents, this`fileEventsAddedCount, shortTermHeap
      ensures |turns| == |wakes| && forall i | 0 <= i < |wakes| :: turns[i].wake == wakes[i]
      ensures T.Run(old(AsWorker(n)), turns)
      ensures var n' := n + T.Loads(turns);
              && Running(seeds, n') && AsWorker(n') == T.End(old(AsWorker(n)), turns)
              && shortTermHeap.events + multiset(outEvents) == seeds + D.LoadedBy(File(), n')
              && lastEventTime == D.After(File(), n').last
      ensures D.Timed(File()) && D.KeepsUp(File()) && old(M.InOrder(Merged())) ==> Sorted(outEvents)
    {
      hide D.After, D.Returns, D.LoadedBy, D.Timed, D.KeepsUp, StreamValid, Loadable, File, T.Do, T.Possible,
           T.Run, T.End, T.Accounts, M.InOrder, Running;
      turns := [];
      ghost var w := AsWorker(n);
      WhatRunningMeans(seeds, n);
      T.NoTurns(w);
      var i := 0;
      while i < |wakes|
        invariant i == |turns| <= |wakes| && forall j | 0 <= j < i :: turns[j].wake == wakes[j]
        invariant T.Run(w, turns) && Running(seeds, n + T.Loads(turns))
        invariant AsWorker(n + T.Loads(turns)) == T.End(w, turns)
      {
        ghost var t := Turnover(wakes[i], seeds, n + T.Loads(turns));
        T.OneTurnMore(w, turns, t);
        turns := turns + [t];
        i := i + 1;
      }
      WhatRunningMeans(seeds, n + T.Loads(turns));
      if D.Timed(File()) && D.KeepsUp(File()) && M.InOrder(w.merge) {
        T.RunInOrder(w, seeds, turns);
        M.OrderIsSorted(Merged());
      }
    }

    lemma WhatRunningMeans(seeds: multiset<Event>, n: nat)
      requires Running(seeds, n)
      ensures D.Returns(File()) && T.Accounts(AsWorker(n), seeds)
      ensures shortTermHeap.events + multiset(outEvents) == seeds + D.LoadedBy(File(), n)
      ensures lastEventTime == D.After(File(), n).last
    {
    }
  }
}
