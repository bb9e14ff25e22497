/** Reading comma-separated records: the stream loader, the memory-mapped loader, and what they agree on. */
module Records {
  import opened Events
  import opened Texts

  type Record = seq<string>

  // ---- trimming ----

  predicate Blank(c: char) { c == ' ' || c == '\t' }

  predicate AllBlank(s: string) { forall i | 0 <= i < |s| :: Blank(s[i]) }

  /** No blank at either end. */
  predicate Trimmed(s: string) { s == "" || (!Blank(s[0]) && !Blank(s[|s| - 1])) }

  /** find_first_not_of: |s| when there is none. */
  function FirstNotBlank(s: string): (i: nat)
    ensures i <= |s| && AllBlank(s[..i])
    ensures i < |s| ==> !Blank(s[i])
  {
    if s == "" || !Blank(s[0]) then 0
    else
      var i := 1 + FirstNotBlank(s[1..]);
      assert s[..i] == [s[0]] + s[1..][..i - 1];
      i
  }

  /** One past find_last_not_of: 0 when there is none. */
  function AfterLastNotBlank(s: string): (j: nat)
    ensures j <= |s| && AllBlank(s[j..])
    ensures 0 < j ==> !Blank(s[j - 1])
  {
    if s == "" || !Blank(s[|s| - 1]) then |s|
    else
      var j := AfterLastNotBlank(s[..|s| - 1]);
      assert s[j..] == s[..|s| - 1][j..] + [s[|s| - 1]];
      j
  }

  function Trim(s: string): string {
    var begin := FirstNotBlank(s);
    if begin == |s| then "" else s[begin..AfterLastNotBlank(s)]
  }

  /** Trimming removes blanks and tabs only, and all of them at both ends. */
  lemma TrimIsMaximal(s: string)
    ensures Trimmed(Trim(s))
    ensures Trim(s) != "" ==> Trim(s)[0] !in {' ', '\t'} && Trim(s)[|Trim(s)| - 1] !in {' ', '\t'}
    ensures exists pre, post :: s == pre + Trim(s) + post && forall c | c in pre + post :: c == ' ' || c == '\t'
  {
    hide FirstNotBlank, AfterLastNotBlank;
    var i, j := FirstNotBlank(s), AfterLastNotBlank(s);
    if i == |s| {
      assert s == s + Trim(s) + "" && forall c | c in s + "" :: Blank(c);
    } else {
      assert i < j;
      assert s == s[..i] + Trim(s) + s[j..] && forall c | c in s[..i] + s[j..] :: Blank(c);
    }
  }

  lemma TrimFixesExactlyTrimmed(s: string)
    ensures Trim(s) == s <==> Trimmed(s)
  {
    TrimIsMaximal(s);
    if Trimmed(s) && s != "" {
      assert FirstNotBlank(s) == 0 && AfterLastNotBlank(s) == |s|;
    }
  }

  // ---- getline ----

  /** A std::istream over text: what is left to read, and whether none of its error flags is set. */
  datatype Stream = Stream(rest: string, good: bool)

  function Open(text: string): Stream { Stream(text, true) }

  /** std::getline: reaching the end of the text clears `good`, with or without characters read. */
  function GetLine(st: Stream, delim: char): (Option<string>, Stream) {
    if !st.good || st.rest == "" then (None, Stream(st.rest, false))
    else
      var i := Find(st.rest, delim);
      (Some(st.rest[..i]), if i == |st.rest| then Stream("", false) else Stream(st.rest[i + 1..], true))
  }

  lemma GetLineShrinks(st: Stream, delim: char)
    ensures var (line, next) := GetLine(st, delim);
            if line.Some? then |next.rest| < |st.rest| else !next.good && next.rest == st.rest
  {
  }

  lemma GetLineFound(text: string, delim: char)
    requires Find(text, delim) < |text|
    ensures var i := Find(text, delim); GetLine(Open(text), delim) == (Some(text[..i]), Open(text[i + 1..]))
  {
  }

  /** The last line needs no newline; reading it, or trying to read another, meets the end of the text. */
  lemma GetLineLast(text: string, delim: char)
    requires delim !in text && text != ""
    ensures GetLine(Open(text), delim) == (Some(text), Stream("", false))
    ensures GetLine(Open(""), delim) == (None, Stream("", false)) == GetLine(Stream("", false), delim)
  {
    FindFirst(text, delim, "");
    assert text[..|text|] == text;
  }

  /** The trimmed fields of a line: only an empty field after the last comma is dropped. */
  function Fields(line: string): Record
    decreases |line|
  {
    if line == "" then []
    else
      var i := Find(line, ',');
      [Trim(line[..i])] + (if i == |line| then [] else Fields(line[i + 1..]))
  }

  /** The fields still to come from a stream over a line. */
  ghost function FieldsLeft(ss: Stream): Record {
    if ss.good then Fields(ss.rest) else []
  }

  lemma FieldsStep(ss: Stream)
    ensures var (s, next) := GetLine(ss, ',');
            FieldsLeft(ss) == if s.None? then [] else [Trim(s.value)] + FieldsLeft(next)
  {
    hide Trim;
  }

  method ParseLine(line: string) returns (record: Record)
    ensures record == Fields(line)
  {
    hide Trim, GetLine, Fields, Find;
    record := [];
    var ss := Open(line);
    while true
      invariant Fields(line) == record + FieldsLeft(ss)
      decreases |ss.rest|, if ss.good then 1 else 0
    {
      FieldsStep(ss);
      GetLineShrinks(ss, ',');
      var (s, next) := GetLine(ss, ',');
      ss := next;
      if s.None? { break; }
      assert record + ([Trim(s.value)] + FieldsLeft(ss)) == record + [Trim(s.value)] + FieldsLeft(ss);
      record := record + [Trim(s.value)];
    }
  }

  // ---- the stream loader ----

  datatype Loaded = Loaded(records: seq<Record>, stream: Stream)

  function Keep(line: string, numFields: int): seq<Record> {
    if |Fields(line)| == numFields then [Fields(line)] else []
  }

  function Prepend(kept: seq<Record>, more: Loaded): Loaded {
    Loaded(kept + more.records, more.stream)
  }

  lemma PrependTwice(a: seq<Record>, b: seq<Record>, more: Loaded)
    ensures Prepend(a, Prepend(b, more)) == Prepend(a + b, more)
  {
    assert a + (b + more.records) == a + b + more.records;
  }

  /** What is left of a limit after one line. */
  function Less(limit: int): int { if limit > 0 then limit - 1 else limit }

  /** At most `limit` lines are read, malformed ones included; a limit of zero or less means no limit. */
  function Load(st: Stream, numFields: int, limit: int): Loaded
    decreases |st.rest|, if st.good then 1 else 0
  {
    if !st.good then Loaded([], st)
    else
      var (line, next) := GetLine(st, '\n');
      if line.None? then Loaded([], next)
      else if limit == 1 then Loaded(Keep(line.value, numFields), next)
      else Prepend(Keep(line.value, numFields), Load(next, numFields, Less(limit)))
  }

  lemma LoadStep(data: seq<Record>, st: Stream, n: int, left: int)
    requires st.good
    ensures var (line, next) := GetLine(st, '\n');
            Prepend(data, Load(st, n, left)) ==
            if line.None? then Loaded(data, next)
            else if left == 1 then Loaded(data + Keep(line.value, n), next)
            else Prepend(data + Keep(line.value, n), Load(next, n, Less(left)))
  {
    var (line, next) := GetLine(st, '\n');
    if line.Some? && left != 1 {
      PrependTwice(data, Keep(line.value, n), Load(next, n, Less(left)));
    }
  }

  lemma LoadStepFirst(st: Stream, n: int, limit: int)
    requires st.good
    ensures var (line, next) := GetLine(st, '\n');
            Load(st, n, limit) ==
            if line.None? then Loaded([], next)
            else if limit == 1 then Loaded(Keep(line.value, n), next)
            else Prepend(Keep(line.value, n), Load(next, n, Less(limit)))
  {
  }

  lemma LoadEnd(data: seq<Record>, st: Stream, n: int, limit: int)
    requires !st.good
    ensures Prepend(data, Load(st, n, limit)) == Loaded(data, st)
  {
  }

  method LoadFile(infile: Stream, numFields: int, numRecords: int) returns (data: seq<Record>, after: Stream)
    ensures Loaded(data, after) == Load(infile, numFields, numRecords)
  {
    hide GetLine, Fields, Load;
    data, after := [], infile;
    var i := 0;
    var noLimit := numRecords <= 0;
    while after.good
      invariant 0 <= i && (noLimit || i < numRecords)
      invariant Load(infile, numFields, numRecords)
             == Prepend(data, Load(after, numFields, if noLimit then numRecords else numRecords - i))
      decreases |after.rest|, if after.good then 1 else 0
    {
      ghost var left := if noLimit then numRecords else numRecords - i;
      LoadStep(data, after, numFields, left);
      GetLineShrinks(after, '\n');
      var (line, next) := GetLine(after, '\n');
      after := next;
      if line.None? { return; }
      var record := ParseLine(line.value);
      if |record| == numFields {
        data := data + [record];
      }
      i := i + 1;
      if i >= numRecords && !noLimit { return; }
    }
    LoadEnd(data, after, numFields, if noLimit then numRecords else numRecords - i);
  }

  lemma {:induction false} LoadedSizes(st: Stream, n: int, limit: int)
    ensures forall r | r in Load(st, n, limit).records :: |r| == n
    decreases |st.rest|, if st.good then 1 else 0
  {
    hide GetLine, Fields;
    GetLineShrinks(st, '\n');
    if st.good && GetLine(st, '\n').0.Some? && limit != 1 {
      LoadedSizes(GetLine(st, '\n').1, n, Less(limit));
    }
  }

  /** Reading in two chunks is reading once, and leaves the stream in the same state. */
  lemma {:induction false} ChunkedLoad(st: Stream, n: int, a: int, b: int)
    requires 0 < a
    ensures var x := Load(st, n, a);
            Load(st, n, if b <= 0 then b else a + b) == Prepend(x.records, Load(x.stream, n, b))
    decreases |st.rest|, if st.good then 1 else 0
  {
    hide GetLine, Keep;
    GetLineShrinks(st, '\n');
    var x := Load(st, n, a);
    if st.good && GetLine(st, '\n').0.Some? {
      var (line, next) := GetLine(st, '\n');
      if a > 1 {
        var x' := Load(next, n, a - 1);
        ChunkedLoad(next, n, a - 1, b);
        PrependTwice(Keep(line.value, n), x'.records, Load(x.stream, n, b));
      }
    } else {
      assert !x.stream.good;
    }
  }

  // ---- the memory-mapped loader ----

  /** The record of a last line without newline, which only the stream loader sees, if the limit lets it get there. */
  function UnterminatedTail(buf: string, numFields: int, limit: int): seq<Record>
    decreases |buf|
  {
    var i := Find(buf, '\n');
    if i == |buf| then (if buf == "" then [] else Keep(buf, numFields))
    else if limit == 1 then []
    else UnterminatedTail(buf[i + 1..], numFields, Less(limit))
  }

  /** The records of a text as the stream loader sees them, with the tail that only it reads split off. */
  ghost predicate Splits(buf: string, n: int, limit: int, data: seq<Record>, rest: string, left: int) {
    && Load(Open(buf), n, limit).records == data + Load(Open(rest), n, left).records
    && UnterminatedTail(buf, n, limit) == UnterminatedTail(rest, n, left)
  }

  lemma SplitLine(buf: string, n: int, limit: int, data: seq<Record>, rest: string, left: int)
    requires Splits(buf, n, limit, data, rest, left) && Find(rest, '\n') < |rest|
    ensures var i := Find(rest, '\n');
            var data' := data + Keep(rest[..i], n);
            && (left == 1 ==> Load(Open(buf), n, limit).records == data' && UnterminatedTail(buf, n, limit) == [])
            && (left != 1 ==> Splits(buf, n, limit, data', rest[i + 1..], Less(left)))
  {
    hide GetLine, Find, Keep;
    GetLineFound(rest, '\n');
    LoadStep(data, Open(rest), n, left);
  }

  lemma LastLine(rest: string, n: int, left: int)
    requires Find(rest, '\n') == |rest|
    ensures Load(Open(rest), n, left).records == UnterminatedTail(rest, n, left)
  {
    assert rest[..|rest|] == rest;
    LoadStepFirst(Open(rest), n, left);
  }

  lemma SplitStart(buf: string, n: int, limit: int)
    ensures Splits(buf, n, limit, [], buf, limit)
  {
    assert [] + Load(Open(buf), n, limit).records == Load(Open(buf), n, limit).records;
  }

  lemma SplitEnd(buf: string, n: int, limit: int, data: seq<Record>, rest: string, left: int)
    requires Splits(buf, n, limit, data, rest, left) && Find(rest, '\n') == |rest|
    ensures Load(Open(buf), n, limit).records == data + UnterminatedTail(buf, n, limit)
  {
    LastLine(rest, n, left);
  }

  /** Agrees with the stream loader on everything but a last line that no newline terminates. */
  method LoadMMapFile(buf: string, numFields: int, numRecords: int) returns (data: seq<Record>)
    ensures Load(Open(buf), numFields, numRecords).records == data + UnterminatedTail(buf, numFields, numRecords)
  {
    hide Load, UnterminatedTail, Fields, Find, Splits;
    data := [];
    var i := 0;
    var noLimit := numRecords <= 0;
    var begin := 0;
    var end := Find(buf, '\n');
    ghost var rest, left := buf, numRecords;
    SplitStart(buf, numFields, numRecords);
    while end != |buf|
      invariant 0 <= begin <= end <= |buf| && rest == buf[begin..] && end == begin + Find(rest, '\n')
      invariant 0 <= i && left == (if noLimit then numRecords else numRecords - i) && (noLimit || 0 < left)
      invariant Splits(buf, numFields, numRecords, data, rest, left)
      decreases |buf| - begin
    {
      var record := ParseLine(buf[begin..end]);
      SplitLine(buf, numFields, numRecords, data, rest, left);
      assert rest[..end - begin] == buf[begin..end] && rest[end - begin + 1..] == buf[end + 1..];
      ghost var was := data;
      if |record| == numFields {
        data := data + [record];
      }
      assert data == was + Keep(buf[begin..end], numFields);
      i := i + 1;
      if i >= numRecords && !noLimit { return; }
      begin := end + 1;
      rest, left := buf[begin..], Less(left);
      end := begin + Find(buf[begin..], '\n');
    }
    SplitEnd(buf, numFields, numRecords, data, rest, left);
  }

  predicate NewlineTerminated(buf: string) {
    buf == "" || buf[|buf| - 1] == '\n'
  }

  /** Both loaders return the same records for every text whose lines are all terminated, whatever count and limit. */
  lemma {:induction false} NoTailWhenTerminated(buf: string, n: int, limit: int)
    requires NewlineTerminated(buf)
    ensures UnterminatedTail(buf, n, limit) == []
    decreases |buf|
  {
    var i := Find(buf, '\n');
    if i != |buf| && limit != 1 {
      NoTailWhenTerminated(buf[i + 1..], n, Less(limit));
    }
  }

  function Newlines(buf: string): nat
    decreases |buf|
  {
    var i := Find(buf, '\n');
    if i == |buf| then 0 else 1 + Newlines(buf[i + 1..])
  }

  /** What follows the last newline. */
  function Rest(buf: string): string
    decreases |buf|
  {
    var i := Find(buf, '\n');
    if i == |buf| then buf else Rest(buf[i + 1..])
  }

  lemma RestStep(buf: string, n: int, limit: int)
    ensures var i := Find(buf, '\n');
            if i == |buf| then
              && Rest(buf) == buf && Newlines(buf) == 0
              && UnterminatedTail(buf, n, limit) == if buf == "" then [] else Keep(buf, n)
            else
              var tail := buf[i + 1..];
              && Rest(buf) == Rest(tail) && Newlines(buf) == 1 + Newlines(tail)
              && UnterminatedTail(buf, n, limit) == if limit == 1 then [] else UnterminatedTail(tail, n, Less(limit))
  {
  }

  lemma {:induction false} RestIs(buf: string)
    ensures '\n' !in Rest(buf) && |Rest(buf)| <= |buf| && Rest(buf) == buf[|buf| - |Rest(buf)|..]
    ensures Rest(buf) == "" <==> NewlineTerminated(buf)
    decreases |buf|
  {
    hide Rest, Newlines, UnterminatedTail, NewlineTerminated;
    var i := Find(buf, '\n');
    RestStep(buf, 0, 0);
    if i == |buf| {
      assert buf[..i] == buf;
      NoNewlineAtEnd(buf);
    } else {
      RestIs(buf[i + 1..]);
      Suffixes(buf, i + 1, |Rest(buf)|);
      SameEnd(buf, i + 1);
    }
  }

  lemma NoNewlineAtEnd(buf: string)
    requires '\n' !in buf
    ensures NewlineTerminated(buf) <==> buf == ""
  {
  }

  lemma SameEnd(buf: string, i: nat)
    requires 0 < i <= |buf| && buf[i - 1] == '\n'
    ensures NewlineTerminated(buf) <==> NewlineTerminated(buf[i..])
  {
  }

  lemma Suffixes(s: string, i: nat, n: nat)
    requires i + n <= |s|
    ensures s[i..][|s[i..]| - n..] == s[|s| - n..]
  {
  }

  /**
   Exactly when the loaders return different records: when there is text after the last newline, it has as many fields
   as asked for, and the limit reaches it.
   */
  lemma {:induction false} LoadersDifferIff(buf: string, n: int, limit: int)
    ensures UnterminatedTail(buf, n, limit) != [] <==>
            !NewlineTerminated(buf) && |Fields(Rest(buf))| == n && (limit <= 0 || Newlines(buf) < limit)
    decreases |buf|
  {
    hide Fields, Rest, Newlines, UnterminatedTail, NewlineTerminated, Find;
    RestStep(buf, n, limit);
    RestIs(buf);
    var i := Find(buf, '\n');
    if i != |buf| {
      RestIs(buf[i + 1..]);
      LoadersDifferIff(buf[i + 1..], n, Less(limit));
    }
  }

  // ---- what a load takes off the lines of a file ----

  /** The fields of every line still to be read. */
  function Lines(st: Stream): seq<Record>
    decreases |st.rest|
  {
    if !st.good || st.rest == "" then []
    else
      var (line, next) := GetLine(st, '\n');
      [Fields(line.value)] + Lines(next)
  }

  predicate AllOfSize(rs: seq<Record>, n: int) { forall r | r in rs :: |r| == n }

  /** How many lines a limit takes out of `total`. */
  function Taken(limit: int, total: nat): nat {
    if 0 < limit < total then limit else total
  }

  /** The records with `n` fields. */
  function OfSize(rs: seq<Record>, n: int): seq<Record> {
    if rs == [] then [] else (if |rs[0]| == n then [rs[0]] else []) + OfSize(rs[1..], n)
  }

  /** A limit takes lines off `lines`: those with `n` fields are in `batch`, and `left` are the lines not taken. */
  ghost predicate ReadsOff(lines: seq<Record>, n: int, limit: int, batch: seq<Record>, left: seq<Record>) {
    var k := Taken(limit, |lines|);
    batch == OfSize(lines[..k], n) && left == lines[k..]
  }

  lemma LinesStep(st: Stream)
    requires st.good && st.rest != ""
    ensures var (line, next) := GetLine(st, '\n');
            line.Some? && Lines(st) == [Fields(line.value)] + Lines(next)
  {
  }

  lemma LinesEnd(st: Stream)
    requires !st.good || st.rest == ""
    ensures Lines(st) == []
  {
  }

  lemma ReadsOffFirst(first: Record, rest: seq<Record>, n: int, limit: int, batch: seq<Record>, left: seq<Record>)
    requires limit != 1 ==> ReadsOff(rest, n, Less(limit), batch, left)
    ensures var kept := if |first| == n then [first] else [];
            if limit == 1 then ReadsOff([first] + rest, n, limit, kept, rest)
            else ReadsOff([first] + rest, n, limit, kept + batch, left)
  {
    var all := [first] + rest;
    var k := Taken(limit, |all|);
    assert all[..k] == [first] + rest[..k - 1] && all[..k][1..] == rest[..k - 1];
    assert all[k..] == rest[k - 1..];
    if limit == 1 {
      assert OfSize(rest[..0], n) == [];
    }
  }

  /** A load takes the next lines, malformed ones included, and keeps those with the right number of fields. */
  lemma {:induction false} LoadReadsLines(st: Stream, n: int, limit: int)
    ensures ReadsOff(Lines(st), n, limit, Load(st, n, limit).records, Lines(Load(st, n, limit).stream))
    decreases |st.rest|
  {
    hide GetLine, Fields, Lines, ReadsOff;
    GetLineShrinks(st, '\n');
    if !st.good {
      LinesEnd(st);
      ReadsNothing(n, limit);
    } else if st.rest == "" {
      LoadStepFirst(st, n, limit);
      LinesEnd(st);
      LinesEnd(GetLine(st, '\n').1);
      ReadsNothing(n, limit);
    } else {
      LoadStepFirst(st, n, limit);
      LinesStep(st);
      var (line, next) := GetLine(st, '\n');
      if limit != 1 {
        LoadReadsLines(next, n, Less(limit));
      }
      var l := Load(next, n, Less(limit));
      ReadsOffFirst(Fields(line.value), Lines(next), n, limit, l.records, Lines(l.stream));
    }
  }

  lemma ReadsNothing(n: int, limit: int)
    ensures ReadsOff([], n, limit, [], [])
  {
  }

  lemma {:induction false} OfSizeIs(rs: seq<Record>, n: int)
    ensures OfSize(rs, n) == rs <==> AllOfSize(rs, n)
    ensures OfSize(rs, n) == [] <==> forall r | r in rs :: |r| != n
    ensures |OfSize(rs, n)| <= |rs|
  {
    if rs != [] {
      OfSizeIs(rs[1..], n);
      assert rs == [rs[0]] + rs[1..];
    }
  }

  /** A load comes back empty, as it does at the end of a file, exactly when all the lines it may take are malformed. */
  lemma EmptyLoadIff(st: Stream, n: int, limit: int)
    ensures Load(st, n, limit).records == [] <==>
            forall i | 0 <= i < Taken(limit, |Lines(st)|) :: |Lines(st)[i]| != n
  {
    hide Lines, Load;
    LoadReadsLines(st, n, limit);
    var taken := Lines(st)[..Taken(limit, |Lines(st)|)];
    OfSizeIs(taken, n);
    if forall i | 0 <= i < |taken| :: |Lines(st)[i]| != n {
      assert forall r | r in taken :: |r| != n;
    } else {
      var i :| 0 <= i < |taken| && |Lines(st)[i]| == n;
      assert taken[i] in taken;
    }
  }

  // ---- printing and reading back ----

  function Join(r: Record): string {
    if r == [] then "" else if |r| == 1 then r[0] else r[0] + "," + Join(r[1..])
  }

  function Print(rs: seq<Record>): string {
    if rs == [] then "" else Join(rs[0]) + "\n" + Print(rs[1..])
  }

  /** No field contains a separator. */
  predicate Printable(r: Record) {
    forall f | f in r :: ',' !in f && '\n' !in f
  }

  /** The records that survive: trimmed fields, of which the last is not empty. */
  predicate Survives(r: Record) {
    (forall f | f in r :: Trimmed(f)) && (r != [] ==> r[|r| - 1] != "")
  }

  /** All fields but an empty one at the end. */
  function Kept(r: Record): Record {
    if r != [] && r[|r| - 1] == "" then r[..|r| - 1] else r
  }

  function TrimAll(r: Record): Record { seq(|r|, i requires 0 <= i < |r| => Trim(r[i])) }

  /** Splitting undoes joining, up to trimming and one dropped empty field at the end. */
  lemma {:induction false} FieldsOfJoin(r: Record)
    requires Printable(r)
    ensures Fields(Join(r)) == TrimAll(Kept(r))
    decreases |r|
  {
    hide Trim, Find, Fields;
    if |r| <= 1 {
      FieldsAlone(Join(r));
    } else {
      var rest := Join(r[1..]);
      assert Join(r) == r[0] + [','] + rest;
      FieldsFirst(r[0], rest);
      FieldsOfJoin(r[1..]);
      assert Kept(r) == [r[0]] + Kept(r[1..]);
      assert TrimAll(Kept(r)) == [Trim(r[0])] + TrimAll(Kept(r[1..]));
    }
  }

  lemma FieldsAlone(f: string)
    requires ',' !in f
    ensures Fields(f) == if f == "" then [] else [Trim(f)]
  {
    hide Trim;
    if f != "" {
      FindFirst(f, ',', "");
      assert f[..|f|] == f;
    }
  }

  lemma FieldsFirst(f: string, rest: string)
    requires ',' !in f
    ensures Fields(f + [','] + rest) == [Trim(f)] + Fields(rest)
  {
    hide Trim;
    var line := f + [','] + rest;
    FindFirst(f, ',', rest);
    assert line[..|f|] == f && line[|f| + 1..] == rest;
  }

  lemma JoinedLineSurvives(r: Record)
    requires Printable(r)
    ensures Fields(Join(r)) == r <==> Survives(r)
  {
    hide Trim, Trimmed, Fields, Join;
    FieldsOfJoin(r);
    forall f | f in r ensures Trim(f) == f <==> Trimmed(f) { TrimFixesExactlyTrimmed(f); }
    if Fields(Join(r)) == r {
      forall f | f in r ensures Trimmed(f) {
        var i :| 0 <= i < |r| && r[i] == f;
        assert Fields(Join(r))[i] == Trim(r[i]);
      }
    }
  }

  lemma {:induction false} JoinHasNoNewline(r: Record)
    requires Printable(r)
    ensures '\n' !in Join(r)
  {
    if |r| > 1 {
      JoinHasNoNewline(r[1..]);
    }
  }

  /** Loading a printed list reads its lines one by one. */
  lemma {:induction false} LoadOfPrint(rs: seq<Record>, n: int)
    requires forall r | r in rs :: Printable(r)
    ensures var l := Load(Open(Print(rs)), n, 0);
            && |l.records| <= |rs|
            && (l.records == rs <==> forall r | r in rs :: |r| == n && Survives(r))
  {
    hide Fields, Join, Find, GetLine, Survives, Load;
    if rs == [] {
      assert Print(rs) == "";
      GetLineShrinks(Open(""), '\n');
      assert GetLine(Open(""), '\n').0.None?;
      LoadStepFirst(Open(""), n, 0);
      assert Load(Open(""), n, 0).records == [];
    } else {
      var line, rest := Join(rs[0]), Print(rs[1..]);
      JoinHasNoNewline(rs[0]);
      JoinedLineSurvives(rs[0]);
      FindFirst(line, '\n', rest);
      assert Print(rs) == line + ['\n'] + rest;
      assert Print(rs)[..|line|] == line && Print(rs)[|line| + 1..] == rest;
      GetLineFound(Print(rs), '\n');
      LoadStepFirst(Open(Print(rs)), n, 0);
      LoadOfPrint(rs[1..], n);
      var l, tail := Load(Open(Print(rs)), n, 0), Load(Open(rest), n, 0);
      assert l.records == Keep(line, n) + tail.records;
      FirstAndRest(rs, Keep(line, n), tail.records);
    }
  }

  /** A list split into at most one record and a no longer tail can only be split at its first record. */
  lemma FirstAndRest(rs: seq<Record>, first: seq<Record>, tail: seq<Record>)
    requires rs != [] && |first| <= 1 && |tail| <= |rs| - 1
    ensures first + tail == rs <==> first == [rs[0]] && tail == rs[1..]
  {
    if first + tail == rs {
      assert |first| == 1 && (first + tail)[0] == first[0] && (first + tail)[1..] == tail;
    }
    assert rs == [rs[0]] + rs[1..];
  }

  /** Parse-print round trip: it gives a list back exactly when every record has the count and survives splitting. */
  lemma PrintedListIsReadBack(rs: seq<Record>, n: int)
    requires forall r | r in rs :: Printable(r)
    ensures Load(Open(Print(rs)), n, 0).records == rs <==> forall r | r in rs :: |r| == n && Survives(r)
  {
    LoadOfPrint(rs, n);
  }

  /** A text of one line has that line. */
  lemma OneLineText(text: string)
    requires text != "" && '\n' !in text
    ensures Lines(Open(text)) == [Fields(text)]
  {
    hide Fields;
    FindFirst(text, '\n', "");
    assert text[..|text|] == text;
    LinesEnd(Stream("", false));
  }

  /** Reading all of it. */
  lemma LoadAll(text: string, n: int)
    requires AllOfSize(Lines(Open(text)), n)
    ensures Load(Open(text), n, -1).records == Lines(Open(text))
  {
    hide Lines, Load;
    LoadReadsLines(Open(text), n, -1);
    var lines := Lines(Open(text));
    OfSizeIs(lines, n);
    assert lines[..|lines|] == lines;
  }

  lemma {:induction false} NoLimit(st: Stream, n: int, limit: int)
    requires limit <= 0
    ensures Load(st, n, limit) == Load(st, n, 0)
    decreases |st.rest|, if st.good then 1 else 0
  {
    hide GetLine, Keep;
    GetLineShrinks(st, '\n');
    if st.good && GetLine(st, '\n').0.Some? {
      NoLimit(GetLine(st, '\n').1, n, limit);
    }
  }
}
