/**
 What FileWorker::loadEvents does with its reads: it takes lines in batches as large as what it still needs, drops those
 that are no records, and takes a batch without records for the end of the file. Where every line is a record that is
 the record-at-a-time replay; where not, it may start the file over early, and may never return.
 */
module Reads {
  import opened Events
  import R = Replay

  /** The lines of the events file, with None for those that have not eight fields, and the filters. */
  datatype File = File(lines: seq<Option<R.EventRecord>>, conns: set<int>, ips: set<string>, quota: nat)

  /** The records among some lines. */
  function Good(lines: seq<Option<R.EventRecord>>): seq<R.EventRecord> {
    if lines == [] then [] else (if lines[0].Some? then [lines[0].value] else []) + Good(lines[1..])
  }

  /** The file as the replay sees it. */
  function Plain(f: File): R.Source { R.Source(Good(f.lines), f.conns, f.ips, f.quota) }

  function ProcessAll(src: R.Source, recs: seq<R.EventRecord>, r: R.State): R.State {
    if recs == [] then r else R.Process(src, recs[|recs| - 1], ProcessAll(src, recs[..|recs| - 1], r))
  }

  function Count(src: R.Source, recs: seq<R.EventRecord>): (n: nat)
    ensures n <= |recs|
  {
    if recs == [] then 0
    else Count(src, recs[..|recs| - 1]) + (if R.Passes(src, recs[|recs| - 1]) then 1 else 0)
  }

  /** Where a read of `need` lines ends. */
  function Stop(f: File, need: nat, pos: nat): (to: nat)
    requires pos <= |f.lines|
    ensures pos <= to <= |f.lines| && to <= pos + need
  {
    if pos + need <= |f.lines| then pos + need else |f.lines|
  }

  function Batch(f: File, need: nat, pos: nat): (recs: seq<R.EventRecord>)
    requires pos <= |f.lines|
    ensures |recs| <= Stop(f, need, pos) - pos
  {
    GoodIsShorter(f.lines[pos..Stop(f, need, pos)]);
    Good(f.lines[pos..Stop(f, need, pos)])
  }

  lemma {:induction false} GoodIsShorter(lines: seq<Option<R.EventRecord>>)
    ensures |Good(lines)| <= |lines|
  {
    if lines != [] {
      GoodIsShorter(lines[1..]);
    }
  }

  /** One turn of the loop of loadEvents: what is needed after it, and the state. */
  function Turn(f: File, need: nat, r: R.State): (nat, R.State)
    requires r.pos <= |f.lines|
  {
    var recs := Batch(f, need, r.pos);
    if need == 0 then (need, r)
    else if recs == [] then (need, R.Wrap(r))
    else (need - Count(Plain(f), recs), ProcessAll(Plain(f), recs, r).(pos := Stop(f, need, r.pos)))
  }

  /** What is still needed when a batch without records ends the lap that is at `pos`. */
  function LapNeed(f: File, need: nat, pos: nat): (n: nat)
    requires pos <= |f.lines|
    ensures n <= need
    decreases |f.lines| - pos
  {
    var recs := Batch(f, need, pos);
    if recs == [] then need else LapNeed(f, need - Count(Plain(f), recs), Stop(f, need, pos))
  }

  /** Every lap, from the first that starts with `need`, finds some of what is needed, until nothing is. */
  predicate Ends(f: File, need: nat)
    decreases need
  {
    need == 0 || (LapNeed(f, need, 0) < need && Ends(f, LapNeed(f, need, 0)))
  }

  /** The same from the middle of a lap. */
  predicate Going(f: File, need: nat, pos: nat)
    requires pos <= |f.lines|
  {
    Ends(f, LapNeed(f, need, pos))
  }

  /** A call of loadEvents returns from this file. */
  predicate Returns(f: File) { Ends(f, f.quota) }

  lemma NothingNeeded(f: File, pos: nat)
    requires pos <= |f.lines|
    ensures LapNeed(f, 0, pos) == 0 && Going(f, 0, pos)
  {
  }

  lemma NothingLeft(f: File, need: nat)
    ensures Batch(f, need, |f.lines|) == [] && LapNeed(f, need, |f.lines|) == need
    ensures Going(f, need, |f.lines|) <==> Ends(f, need)
    ensures Ends(f, need) ==> Going(f, need, 0)
  {
    NothingNeeded(f, 0);
    assert f.lines[|f.lines|..Stop(f, need, |f.lines|)] == [];
  }

  predicate LinePasses(f: File, i: nat)
    requires i < |f.lines|
  {
    f.lines[i].Some? && R.Passes(Plain(f), f.lines[i].value)
  }

  lemma {:induction false} GoodHas(lines: seq<Option<R.EventRecord>>, k: nat)
    requires k < |lines| && lines[k].Some?
    ensures lines[k].value in Good(lines)
  {
    if k > 0 {
      GoodHas(lines[1..], k - 1);
    }
  }

  lemma {:induction false} CountSees(src: R.Source, recs: seq<R.EventRecord>, rec: R.EventRecord)
    requires rec in recs && R.Passes(src, rec)
    ensures 0 < Count(src, recs)
  {
    if rec != recs[|recs| - 1] {
      assert rec in recs[..|recs| - 1];
      CountSees(src, recs[..|recs| - 1], rec);
    }
  }

  lemma {:induction false} GoodFrom(lines: seq<Option<R.EventRecord>>, rec: R.EventRecord) returns (k: nat)
    requires rec in Good(lines)
    ensures k < |lines| && lines[k] == Some(rec)
  {
    if lines[0] == Some(rec) {
      k := 0;
    } else {
      k := GoodFrom(lines[1..], rec);
      k := k + 1;
    }
  }

  lemma {:induction false} CountedOne(src: R.Source, recs: seq<R.EventRecord>) returns (rec: R.EventRecord)
    requires 0 < Count(src, recs)
    ensures rec in recs && R.Passes(src, rec)
  {
    if R.Passes(src, recs[|recs| - 1]) {
      rec := recs[|recs| - 1];
    } else {
      rec := CountedOne(src, recs[..|recs| - 1]);
    }
  }

  /** What a lap finds is in the lines it has before it. */
  lemma {:induction false} LapFound(f: File, need: nat, pos: nat) returns (i: nat)
    requires pos <= |f.lines| && LapNeed(f, need, pos) < need
    ensures pos <= i < |f.lines| && LinePasses(f, i)
    decreases |f.lines| - pos
  {
    hide Good, Count, Plain;
    var recs, stop := Batch(f, need, pos), Stop(f, need, pos);
    if 0 < Count(Plain(f), recs) {
      var rec := CountedOne(Plain(f), recs);
      i := GoodFrom(f.lines[pos..stop], rec);
      i := pos + i;
    } else {
      i := LapFound(f, need, stop);
    }
  }

  /** The loop of loadEvents until nothing is needed. */
  function Pull(f: File, need: nat, r: R.State): R.State
    requires r.pos <= |f.lines| && Going(f, need, r.pos)
    decreases need, Dry(f, need, r.pos), |f.lines| - r.pos
  {
    if need == 0 then r
    else
      TurnGoesOn(f, need, r);
      var (need', r') := Turn(f, need, r);
      Pull(f, need', r')
  }

  /** Whether the file has to be started over before another record passes. */
  function Dry(f: File, need: nat, pos: nat): nat
    requires pos <= |f.lines|
  {
    if need == 0 || LapNeed(f, need, pos) < need then 0 else 1
  }

  /** Each turn of the loop brings its end closer: fewer events needed, or a fresh start, or fewer lines left. */
  lemma TurnGoesOn(f: File, need: nat, r: R.State)
    requires r.pos <= |f.lines| && Going(f, need, r.pos) && 0 < need
    ensures var (need', r') := Turn(f, need, r);
            && r'.pos <= |f.lines| && Going(f, need', r'.pos)
            && (|| need' < need
                || (need' == need && Dry(f, need', r'.pos) < Dry(f, need, r.pos))
                || (need' == need && Dry(f, need', r'.pos) == Dry(f, need, r.pos) && r.pos < r'.pos))
  {
    hide Good, Count, R.Process, ProcessAll, Plain;
    NothingNeeded(f, 0);
    StopMoves(f, need, r.pos);
  }

  lemma StopMoves(f: File, need: nat, pos: nat)
    requires pos <= |f.lines|
    ensures Batch(f, need, pos) != [] ==> pos < Stop(f, need, pos)
  {
  }

  /** The same, of what the loop does. */
  lemma TurnProgress(f: File, need: nat, r: R.State)
    requires r.pos <= |f.lines| && Going(f, need, r.pos) && 0 < need
    ensures var (need', r') := Turn(f, need, r);
            && r'.pos <= |f.lines| && Going(f, need', r'.pos) && Pull(f, need, r) == Pull(f, need', r')
            && (|| need' < need
                || (need' == need && Dry(f, need', r'.pos) < Dry(f, need, r.pos))
                || (need' == need && Dry(f, need', r'.pos) == Dry(f, need, r.pos) && r.pos < r'.pos))
  {
    hide Turn, Going, Dry;
    TurnGoesOn(f, need, r);
  }

  lemma PullDone(f: File, r: R.State)
    requires r.pos <= |f.lines|
    ensures Going(f, 0, r.pos) && Pull(f, 0, r) == r
  {
    NothingNeeded(f, r.pos);
  }

  /** One call of loadEvents; its last read has no limit, so the rest of the pass is read and thrown away. */
  function Call(f: File, r: R.State): R.State
    requires r.pos <= |f.lines| && Going(f, f.quota, r.pos)
  {
    Pull(f, f.quota, r.(events := [])).(pos := |f.lines|)
  }

  /** The state after `n` calls. */
  function After(f: File, n: nat): (r: R.State)
    requires Returns(f)
    ensures r.pos == if n == 0 then 0 else |f.lines|
  {
    if n == 0 then R.FRESH
    else
      NothingLeft(f, f.quota);
      Call(f, After(f, n - 1))
  }

  lemma AfterNone(f: File)
    requires Returns(f)
    ensures After(f, 0) == R.FRESH
  {
  }

  lemma NextIsCall(f: File, n: nat)
    requires Returns(f)
    ensures After(f, n).pos <= |f.lines| && Going(f, f.quota, After(f, n).pos)
    ensures After(f, n + 1) == Call(f, After(f, n))
  {
    hide Call, LapNeed;
    NothingLeft(f, f.quota);
  }

  /** All events loaded by the first `n` calls. */
  function LoadedBy(f: File, n: nat): multiset<Event>
    requires Returns(f)
  {
    if n == 0 then multiset{} else LoadedBy(f, n - 1) + multiset(After(f, n).events)
  }

  lemma LoadedOneMore(f: File, n: nat)
    requires Returns(f)
    ensures LoadedBy(f, n + 1) == LoadedBy(f, n) + multiset(After(f, n + 1).events)
  {
  }

  // ---- a call loads exactly its quota ----

  lemma {:induction false} ProcessAllAdds(src: R.Source, recs: seq<R.EventRecord>, r: R.State)
    ensures |ProcessAll(src, recs, r).events| == |r.events| + Count(src, recs)
  {
    if recs != [] {
      ProcessAllAdds(src, recs[..|recs| - 1], r);
    }
  }

  lemma {:induction false} PullAdds(f: File, need: nat, r: R.State)
    requires r.pos <= |f.lines| && Going(f, need, r.pos)
    ensures |Pull(f, need, r).events| == |r.events| + need
    decreases need, Dry(f, need, r.pos), |f.lines| - r.pos
  {
    hide Going, Good, Count, ProcessAll, Pull, Dry;
    if need == 0 {
      PullDone(f, r);
    } else {
      TurnProgress(f, need, r);
      ProcessAllAdds(Plain(f), Batch(f, need, r.pos), r);
      var (need', r') := Turn(f, need, r);
      PullAdds(f, need', r');
    }
  }

  /** Every call loads as many events as it is to, on every file from which it returns. */
  lemma CallLoadsQuota(f: File, n: nat)
    requires Returns(f)
    ensures |After(f, n + 1).events| == f.quota
  {
    hide Pull, Going, After;
    NextIsCall(f, n);
    PullAdds(f, f.quota, After(f, n).(events := []));
  }

  // ---- when a call returns ----

  /** The loop after `m` turns. */
  function Turns(f: File, m: nat, need: nat, r: R.State): (s: (nat, R.State))
    requires r.pos <= |f.lines|
    ensures s.1.pos <= |f.lines|
  {
    if m == 0 then (need, r)
    else
      var (need', r') := Turns(f, m - 1, need, r);
      Turn(f, need', r')
  }

  lemma {:induction false} TurnsFromNext(f: File, m: nat, need: nat, r: R.State)
    requires r.pos <= |f.lines|
    ensures var (need', r') := Turn(f, need, r); Turns(f, m + 1, need, r) == Turns(f, m, need', r')
  {
    hide Turn;
    TurnKeepsPos(f, need, r);
    if m > 0 {
      TurnsFromNext(f, m - 1, need, r);
    }
  }

  lemma TurnKeepsPos(f: File, need: nat, r: R.State)
    requires r.pos <= |f.lines|
    ensures Turn(f, need, r).1.pos <= |f.lines|
  {
  }

  lemma {:induction false} PullIsTurns(f: File, need: nat, r: R.State) returns (m: nat)
    requires r.pos <= |f.lines| && Going(f, need, r.pos)
    ensures Turns(f, m, need, r) == (0, Pull(f, need, r))
    decreases need, Dry(f, need, r.pos), |f.lines| - r.pos
  {
    hide Going, Turn, Pull, Dry;
    m := 0;
    if need == 0 {
      PullDone(f, r);
    } else {
      TurnProgress(f, need, r);
      var (need', r') := Turn(f, need, r);
      m := PullIsTurns(f, need', r');
      TurnsFromNext(f, m, need, r);
      m := m + 1;
    }
  }

  /** A lap that will find nothing is followed by such a lap. */
  lemma TurnStaysStuck(f: File, need: nat, r: R.State)
    requires r.pos <= |f.lines| && !Going(f, need, r.pos)
    ensures var (need', r') := Turn(f, need, r); r'.pos <= |f.lines| && !Going(f, need', r'.pos)
  {
    hide Good, Count, R.Process, ProcessAll, Plain;
    NothingNeeded(f, r.pos);
  }

  lemma {:induction false} StaysStuck(f: File, m: nat, need: nat, r: R.State)
    requires r.pos <= |f.lines| && !Going(f, need, r.pos)
    ensures var (need', r') := Turns(f, m, need, r); need' != 0 && !Going(f, need', r'.pos)
  {
    hide Going, Turn;
    NothingNeeded(f, r.pos);
    if m > 0 {
      StaysStuck(f, m - 1, need, r);
      var (need', r') := Turns(f, m - 1, need, r);
      TurnStaysStuck(f, need', r');
      NothingNeeded(f, Turn(f, need', r').1.pos);
    }
  }

  /** After some number of turns nothing is needed. */
  ghost predicate Finishes(f: File, need: nat, r: R.State)
    requires r.pos <= |f.lines|
  {
    exists m: nat :: Turns(f, m, need, r).0 == 0
  }

  lemma FinishesIff(f: File, need: nat, r: R.State)
    requires r.pos <= |f.lines|
    ensures Finishes(f, need, r) <==> Going(f, need, r.pos)
  {
    hide Turns, Going;
    if Going(f, need, r.pos) {
      var m := PullIsTurns(f, need, r);
      assert Turns(f, m, need, r).0 == 0;
    } else {
      forall m: nat ensures Turns(f, m, need, r).0 != 0 {
        StaysStuck(f, m, need, r);
      }
    }
  }

  /**
   The first call returns if and only if each lap it makes finds some record that passes, which depends on the
   filters, the quota and the places of records and malformed lines.
   */
  lemma ReturnsIff(f: File)
    ensures Finishes(f, f.quota, R.FRESH) <==> Returns(f)
  {
    hide Turns, LapNeed;
    FinishesIff(f, f.quota, R.FRESH);
    NothingLeft(f, f.quota);
    EndsIsGoing(f, f.quota);
  }

  lemma EndsIsGoing(f: File, need: nat)
    ensures Going(f, need, 0) && LapNeed(f, need, 0) < need ==> Ends(f, need)
    ensures need == 0 ==> Ends(f, need)
    ensures 0 < need && LapNeed(f, need, 0) == need ==> (Going(f, need, 0) <==> Ends(f, need)) && !Ends(f, need)
  {
  }

  // ---- whatever the quota ----

  /** Some record passes the filters, and no line before it is malformed. */
  ghost predicate Begins(f: File) {
    exists i: nat :: i < |f.lines| && LinePasses(f, i) && forall j | 0 <= j < i :: f.lines[j].Some?
  }

  lemma {:induction false} LapFinds(f: File, need: nat, pos: nat, i: nat)
    requires 0 < need && pos <= i < |f.lines| && LinePasses(f, i) && forall j | 0 <= j < i :: f.lines[j].Some?
    ensures LapNeed(f, need, pos) < need
    decreases i - pos
  {
    hide Good, Count, LinePasses;
    var stop := Stop(f, need, pos);
    var chunk := f.lines[pos..stop];
    assert chunk[0] == f.lines[pos];
    SomeOf(f, i);
    GoodHas(chunk, 0);
    if i < stop {
      assert chunk[i - pos] == f.lines[i];
      GoodHas(chunk, i - pos);
      CountSees(Plain(f), Batch(f, need, pos), f.lines[i].value);
    } else {
      LapFinds(f, need, stop, i);
    }
  }

  lemma SomeOf(f: File, i: nat)
    requires i < |f.lines| && LinePasses(f, i)
    ensures f.lines[i].Some? && R.Passes(Plain(f), f.lines[i].value)
  {
  }

  lemma {:induction false} BeginsEnds(f: File, need: nat)
    requires Begins(f)
    ensures Ends(f, need)
  {
    hide LinePasses, LapNeed;
    if need > 0 {
      var i: nat :| i < |f.lines| && LinePasses(f, i) && forall j | 0 <= j < i :: f.lines[j].Some?;
      LapFinds(f, need, 0, i);
      BeginsEnds(f, LapNeed(f, need, 0));
    }
  }

  lemma {:induction false} OneByOne(f: File, pos: nat)
    requires pos <= |f.lines| && !Begins(f)
    requires forall j | 0 <= j < pos :: f.lines[j].Some?
    ensures LapNeed(f, 1, pos) == 1
    decreases |f.lines| - pos
  {
    hide Begins;
    if pos < |f.lines| {
      var chunk := f.lines[pos..pos + 1];
      OneLine(chunk);
      if f.lines[pos].Some? {
        NotPassing(f, pos);
        OneCounted(Plain(f), f.lines[pos].value);
        OneByOne(f, pos + 1);
      }
    }
  }

  lemma OneLine(chunk: seq<Option<R.EventRecord>>)
    requires |chunk| == 1
    ensures Good(chunk) == if chunk[0].Some? then [chunk[0].value] else []
  {
    assert Good(chunk[1..]) == [];
  }

  lemma OneCounted(src: R.Source, rec: R.EventRecord)
    ensures Count(src, [rec]) == if R.Passes(src, rec) then 1 else 0
  {
    assert Count(src, [rec][..0]) == 0;
  }

  lemma NotPassing(f: File, i: nat)
    requires i < |f.lines| && !Begins(f) && forall j | 0 <= j < i :: f.lines[j].Some?
    ensures !LinePasses(f, i)
  {
  }

  /** Calls return for every number of events needed iff some record passes and no line before it is malformed. */
  lemma EndsForAllIff(f: File)
    ensures Begins(f) <==> forall need: nat :: Ends(f, need)
  {
    hide Begins, LapNeed;
    if Begins(f) {
      forall need: nat ensures Ends(f, need) {
        BeginsEnds(f, need);
      }
    } else {
      OneByOne(f, 0);
      assert !Ends(f, 1);
    }
  }

  // ---- files in which every line is a record ----

  ghost predicate AllGood(f: File) { forall i | 0 <= i < |f.lines| :: f.lines[i].Some? }

  lemma {:induction false} GoodIs(lines: seq<Option<R.EventRecord>>)
    requires forall i | 0 <= i < |lines| :: lines[i].Some?
    ensures |Good(lines)| == |lines| && forall i | 0 <= i < |lines| :: Good(lines)[i] == lines[i].value
  {
    if lines != [] {
      GoodIs(lines[1..]);
    }
  }

  lemma BatchIs(f: File, need: nat, pos: nat)
    requires AllGood(f) && pos <= |f.lines|
    ensures |Plain(f).recs| == |f.lines|
    ensures Batch(f, need, pos) == Plain(f).recs[pos..Stop(f, need, pos)]
  {
    hide Good;
    GoodIs(f.lines);
    GoodIs(f.lines[pos..Stop(f, need, pos)]);
  }

  lemma {:induction false} FirstPasses(f: File, k: nat) returns (i: nat)
    requires AllGood(f) && k <= |f.lines| == |Plain(f).recs| && 0 < R.Passing(Plain(f), k)
    ensures i < k && LinePasses(f, i)
  {
    GoodIs(f.lines);
    if R.Passes(Plain(f), Plain(f).recs[k - 1]) {
      i := k - 1;
    } else {
      i := FirstPasses(f, k - 1);
    }
  }

  lemma GoodFileEnds(f: File, need: nat, pos: nat)
    requires AllGood(f) && 0 < R.PerPass(Plain(f)) && pos <= |f.lines|
    ensures Begins(f) && Returns(f) && Going(f, need, pos)
  {
    hide LapNeed;
    BatchIs(f, 0, 0);
    var i := FirstPasses(f, |f.lines|);
    BeginsEnds(f, f.quota);
    BeginsEnds(f, LapNeed(f, need, pos));
  }

  lemma OneRecordMore(src: R.Source, recs: seq<R.EventRecord>, rec: R.EventRecord, r: R.State)
    ensures ProcessAll(src, recs + [rec], r) == R.Process(src, rec, ProcessAll(src, recs, r))
    ensures Count(src, recs + [rec]) == Count(src, recs) + (if R.Passes(src, rec) then 1 else 0)
  {
    assert (recs + [rec])[..|recs|] == recs;
  }

  lemma PullTakesOne(src: R.Source, need: nat, r: R.State, pos: nat)
    requires pos < |src.recs| && 0 < R.PerPass(src) && 0 < need
    ensures var rec := src.recs[pos];
            R.Pull(src, need, r.(pos := pos))
            == R.Pull(src, if R.Passes(src, rec) then need - 1 else need, R.Process(src, rec, r).(pos := pos + 1))
  {
    hide R.Pull;
    R.PullTakes(src, need, r.(pos := pos));
  }

  lemma SliceGrows(s: seq<R.EventRecord>, from: nat, to: nat)
    requires from <= to < |s|
    ensures s[from..to + 1] == s[from..to] + [s[to]]
  {
  }

  /** Over part of a batch, the replay does one record after the other what loadEvents does. */
  lemma {:induction false} PullTakesBatch(src: R.Source, need: nat, r: R.State, end: nat)
    requires r.pos <= end <= |src.recs| && end - r.pos <= need && 0 < R.PerPass(src)
    ensures var recs := src.recs[r.pos..end];
            R.Pull(src, need, r) == R.Pull(src, need - Count(src, recs), ProcessAll(src, recs, r).(pos := end))
    decreases end
  {
    hide R.Pull, R.Process, R.PerPass, R.Passes, ProcessAll, Count;
    if r.pos == end {
      NoRecords(src, r);
      assert src.recs[r.pos..end] == [] && r.(pos := end) == r;
    } else {
      var front := src.recs[r.pos..end - 1];
      SliceGrows(src.recs, r.pos, end - 1);
      OneRecordMore(src, front, src.recs[end - 1], r);
      PullTakesBatch(src, need, r, end - 1);
      PullTakesOne(src, need - Count(src, front), ProcessAll(src, front, r), end - 1);
    }
  }

  lemma NoRecords(src: R.Source, r: R.State)
    ensures ProcessAll(src, [], r) == r && Count(src, []) == 0
  {
  }

  /** Where every line is a record, the batches make no difference. */
  lemma {:induction false} PullIsReplay(f: File, need: nat, r: R.State)
    requires AllGood(f) && 0 < R.PerPass(Plain(f)) && r.pos <= |f.lines| == |Plain(f).recs|
    ensures Going(f, need, r.pos) && Pull(f, need, r) == R.Pull(Plain(f), need, r)
    decreases need, Dry(f, need, r.pos), |f.lines| - r.pos
  {
    hide Going, Good, Count, R.Process, ProcessAll, AllGood, R.Passing, Plain, Pull, Dry;
    GoodFileEnds(f, need, r.pos);
    if need == 0 {
      PullDone(f, r);
    } else {
      TurnProgress(f, need, r);
      BatchIs(f, need, r.pos);
      var (need', r') := Turn(f, need, r);
      PullIsReplay(f, need', r');
      if r.pos == |f.lines| {
        R.PullWraps(Plain(f), need, r);
      } else {
        PullTakesBatch(Plain(f), need, r, Stop(f, need, r.pos));
      }
    }
  }

  lemma {:induction false} AfterIsReplay(f: File, n: nat)
    requires AllGood(f) && 0 < R.PerPass(Plain(f))
    ensures Returns(f) && After(f, n) == R.After(Plain(f), n)
  {
    hide Pull, R.Pull, Good, R.Passing, Going, AllGood;
    GoodFileEnds(f, 0, 0);
    BatchIs(f, 0, 0);
    if n > 0 {
      AfterIsReplay(f, n - 1);
      NextIsCall(f, n - 1);
      PullIsReplay(f, f.quota, After(f, n - 1).(events := []));
    }
  }

  // ---- calls repeat ----

  /** No time is negative, loadEvents returns, and is to load something. */
  ghost predicate Timed(f: File) {
    && Returns(f) && 0 < f.quota
    && forall i | 0 <= i < |f.lines| && f.lines[i].Some? :: 0.0 <= f.lines[i].value.start
  }

  ghost predicate TimedRecords(recs: seq<R.EventRecord>) { forall rec | rec in recs :: 0.0 <= rec.start }

  lemma {:induction false} GoodTimed(lines: seq<Option<R.EventRecord>>)
    requires forall i | 0 <= i < |lines| && lines[i].Some? :: 0.0 <= lines[i].value.start
    ensures TimedRecords(Good(lines))
  {
    if lines != [] {
      GoodTimed(lines[1..]);
    }
  }

  lemma BatchTimed(f: File, need: nat, pos: nat)
    requires Timed(f) && pos <= |f.lines|
    ensures TimedRecords(Batch(f, need, pos))
  {
    hide Good, Returns;
    GoodTimed(f.lines[pos..Stop(f, need, pos)]);
  }

  /** The duration of a first pass that is over, or that a call ends in. */
  function DurationOf(r: R.State): int { if 0 < r.looped then r.duration else r.last }

  function Later(e: Event, ms: int): Event { e.(time := e.time + ms) }

  /** `r'` is where `r` is, `k` passes later. */
  ghost predicate Shifted(k: nat, d: int, r: R.State, r': R.State) {
    && r'.pos == r.pos && r'.looped == r.looped + k
    && (0 < r.looped ==> r.duration == d) && (0 < r'.looped ==> r'.duration == d)
    && |r'.events| == |r.events| && forall i | 0 <= i < |r.events| :: r'.events[i] == Later(r.events[i], k * d)
  }

  lemma ShiftOf(k: nat, d: nat, r: R.State, r': R.State)
    requires Shifted(k, d, r, r')
    ensures 0 <= R.Shift(r) && R.Shift(r') == R.Shift(r) + k * d
  {
    assert (r.looped + k) * d == r.looped * d + k * d && 0 <= r.looped * d;
    if r.looped == 0 {
      assert R.Shift(r) == 0;
      if k == 0 {
        assert R.Shift(r') == 0 && k * d == 0;
      }
    }
  }

  lemma ProcessShifted(src: R.Source, rec: R.EventRecord, k: nat, d: nat, r: R.State, r': R.State)
    requires Shifted(k, d, r, r') && 0.0 <= rec.start
    ensures var s, s' := R.Process(src, rec, r), R.Process(src, rec, r');
            Shifted(k, d, s, s') && s'.last == s.last + k * d
    ensures R.Process(src, rec, r).last == R.MakeEvent(rec, R.Shift(r)).time
  {
    hide R.Truncate, R.Passes;
    ShiftOf(k, d, r, r');
    assert 0 <= k * d;
    R.TruncateAddsUp(rec.start * 1000.0, R.Shift(r));
    R.TruncateAddsUp(rec.start * 1000.0, R.Shift(r'));
  }

  lemma {:induction false} ProcessAllShifted(
    src: R.Source, recs: seq<R.EventRecord>, k: nat, d: nat, r: R.State, r': R.State)
    requires Shifted(k, d, r, r') && TimedRecords(recs)
    ensures var s, s' := ProcessAll(src, recs, r), ProcessAll(src, recs, r');
            Shifted(k, d, s, s') && (recs != [] ==> s'.last == s.last + k * d)
  {
    hide Shifted, R.Process;
    if recs != [] {
      var front := recs[..|recs| - 1];
      ProcessAllShifted(src, front, k, d, r, r');
      ProcessShifted(src, recs[|recs| - 1], k, d, ProcessAll(src, front, r), ProcessAll(src, front, r'));
    }
  }

  lemma {:induction false} ProcessAllKeepsPass(src: R.Source, recs: seq<R.EventRecord>, r: R.State)
    ensures var s := ProcessAll(src, recs, r); s.looped == r.looped && s.duration == r.duration
  {
    if recs != [] {
      ProcessAllKeepsPass(src, recs[..|recs| - 1], r);
    }
  }

  /** loopDuration is only set once. */
  lemma {:induction false} PullKeepsDuration(f: File, need: nat, r: R.State)
    requires r.pos <= |f.lines| && Going(f, need, r.pos) && 0 < r.looped
    ensures var s := Pull(f, need, r); 0 < s.looped && s.duration == r.duration
    decreases need, Dry(f, need, r.pos), |f.lines| - r.pos
  {
    hide Going, Good, Count, ProcessAll, Pull, Dry;
    if need == 0 {
      PullDone(f, r);
    } else {
      TurnProgress(f, need, r);
      ProcessAllKeepsPass(Plain(f), Batch(f, need, r.pos), r);
      var (need', r') := Turn(f, need, r);
      PullKeepsDuration(f, need', r');
    }
  }

  ghost predicate SameLast(k: nat, d: int, r: R.State, r': R.State) { r'.last == r.last + k * d }

  /** A turn does later what it does now; `d` is what the first pass turns out to last. */
  lemma TurnShifted(f: File, need: nat, k: nat, d: nat, r: R.State, r': R.State)
    requires Timed(f) && r.pos <= |f.lines| && Going(f, need, r.pos) && 0 < need && 0 < k && Shifted(k, d, r, r')
    requires 0 < r.pos || 0 < r.looped ==> SameLast(k, d, r, r')
    requires d == DurationOf(Pull(f, need, r))
    ensures var ((n, s), (n', s')) := (Turn(f, need, r), Turn(f, need, r'));
            && n' == n && s.pos <= |f.lines| && Shifted(k, d, s, s') && SameLast(k, d, s, s')
            && d == DurationOf(Pull(f, n, s))
  {
    hide Good, Count, ProcessAll, Pull, Dry, Shifted;
    SamePos(k, d, r, r');
    var recs := Batch(f, need, r.pos);
    TurnProgress(f, need, r);
    BatchTimed(f, need, r.pos);
    ProcessAllShifted(Plain(f), recs, k, d, r, r');
    if recs == [] {
      NotAtStart(f, need, r);
      PullKeepsDuration(f, need, R.Wrap(r));
      WrapShifted(k, d, r, r');
    } else {
      MoveShifted(k, d, ProcessAll(Plain(f), recs, r), ProcessAll(Plain(f), recs, r'), Stop(f, need, r.pos));
    }
  }

  lemma SamePos(k: nat, d: int, r: R.State, r': R.State)
    requires Shifted(k, d, r, r')
    ensures r'.pos == r.pos
  {
  }

  lemma NotAtStart(f: File, need: nat, r: R.State)
    requires r.pos <= |f.lines| && Going(f, need, r.pos) && 0 < need && Batch(f, need, r.pos) == []
    ensures 0 < r.pos
  {
  }

  lemma WrapShifted(k: nat, d: int, r: R.State, r': R.State)
    requires Shifted(k, d, r, r') && SameLast(k, d, r, r') && 0 < k && R.Wrap(r).duration == d
    ensures Shifted(k, d, R.Wrap(r), R.Wrap(r')) && SameLast(k, d, R.Wrap(r), R.Wrap(r'))
  {
  }

  lemma MoveShifted(k: nat, d: int, r: R.State, r': R.State, pos: nat)
    requires Shifted(k, d, r, r')
    ensures Shifted(k, d, r.(pos := pos), r'.(pos := pos))
  {
  }

  lemma {:induction false} PullShifted(f: File, need: nat, k: nat, d: nat, r: R.State, r': R.State)
    requires Timed(f) && r.pos <= |f.lines| && Going(f, need, r.pos) && 0 < k && Shifted(k, d, r, r')
    requires 0 < r.pos || 0 < r.looped ==> SameLast(k, d, r, r')
    requires d == DurationOf(Pull(f, need, r))
    ensures r'.pos == r.pos && Shifted(k, d, Pull(f, need, r), Pull(f, need, r'))
    ensures 0 < need || SameLast(k, d, r, r') ==> SameLast(k, d, Pull(f, need, r), Pull(f, need, r'))
    decreases need, Dry(f, need, r.pos), |f.lines| - r.pos
  {
    hide Good, Count, ProcessAll, Pull, Dry, Shifted, SameLast, Turn, Timed;
    SamePos(k, d, r, r');
    TimedReturns(f);
    if need == 0 {
      PullDone(f, r);
      PullDone(f, r');
    } else {
      TurnProgress(f, need, r);
      TurnProgress(f, need, r');
      TurnShifted(f, need, k, d, r, r');
      var (n, s) := Turn(f, need, r);
      var (_, s') := Turn(f, need, r');
      PullShifted(f, n, k, d, s, s');
    }
  }

  lemma TimedReturns(f: File)
    requires Timed(f)
    ensures Returns(f) && 0 < f.quota
  {
  }

  // ---- the first call ----

  /** No time and no duration is negative. */
  ghost predicate Sound(r: R.State) {
    0 <= r.last && 0 <= r.duration && forall e | e in r.events :: 0 <= e.time
  }

  lemma {:induction false} ProcessAllSound(src: R.Source, recs: seq<R.EventRecord>, r: R.State)
    requires Sound(r) && TimedRecords(recs)
    ensures Sound(ProcessAll(src, recs, r))
  {
    hide R.Passes, R.Truncate;
    if recs != [] {
      var front, rec := recs[..|recs| - 1], recs[|recs| - 1];
      ProcessAllSound(src, front, r);
      var s := ProcessAll(src, front, r);
      assert 0 <= R.Shift(s);
      R.TruncateAddsUp(rec.start * 1000.0, R.Shift(s));
    }
  }

  lemma {:induction false} PullSound(f: File, need: nat, r: R.State)
    requires Timed(f) && r.pos <= |f.lines| && Going(f, need, r.pos) && Sound(r)
    ensures Sound(Pull(f, need, r))
    decreases need, Dry(f, need, r.pos), |f.lines| - r.pos
  {
    hide Good, Count, ProcessAll, Pull, Dry, Timed;
    TimedReturns(f);
    if need == 0 {
      PullDone(f, r);
    } else {
      TurnProgress(f, need, r);
      BatchTimed(f, need, r.pos);
      ProcessAllSound(Plain(f), Batch(f, need, r.pos), r);
      var (need', r') := Turn(f, need, r);
      PullSound(f, need', r');
    }
  }

  /** The last event of some records that all pass. */
  lemma LastOfAll(src: R.Source, recs: seq<R.EventRecord>, r: R.State)
    requires recs != [] && Count(src, recs) == |recs| && TimedRecords(recs) && Sound(r)
    ensures var s := ProcessAll(src, recs, r); s.events != [] && s.events[|s.events| - 1].time == s.last
  {
    hide R.Truncate, R.Passes;
    var front, rec := recs[..|recs| - 1], recs[|recs| - 1];
    var s := ProcessAll(src, front, r);
    ProcessAllSound(src, front, r);
    assert R.Passes(src, rec);
    assert 0 <= R.Shift(s);
    R.TruncateAddsUp(rec.start * 1000.0, R.Shift(s));
  }

  /** A call ends with an event, and the watermark is its time. */
  lemma {:induction false} PullEndsWithEvent(f: File, need: nat, r: R.State)
    requires Timed(f) && r.pos <= |f.lines| && Going(f, need, r.pos) && Sound(r) && 0 < need
    ensures var s := Pull(f, need, r); s.events != [] && s.events[|s.events| - 1].time == s.last
    decreases need, Dry(f, need, r.pos), |f.lines| - r.pos
  {
    hide Good, Count, ProcessAll, Pull, Dry, Timed, Sound;
    TimedReturns(f);
    TurnProgress(f, need, r);
    BatchTimed(f, need, r.pos);
    var recs := Batch(f, need, r.pos);
    var (need', r') := Turn(f, need, r);
    ProcessAllSound(Plain(f), recs, r);
    if need' == 0 {
      PullDone(f, r');
      LastOfAll(Plain(f), recs, r);
    } else {
      TurnSound(f, need, r);
      PullEndsWithEvent(f, need', r');
    }
  }

  lemma TurnSound(f: File, need: nat, r: R.State)
    requires r.pos <= |f.lines| && Sound(r) && Sound(ProcessAll(Plain(f), Batch(f, need, r.pos), r))
    ensures Sound(Turn(f, need, r).1)
  {
    hide Good, Count, ProcessAll;
  }

  /** What one call adds to all times of the next: the passes it begins, times the duration of the first. */
  function Period(f: File): int
    requires Returns(f)
  {
    (After(f, 1).looped + 1) * DurationOf(After(f, 1))
  }

  lemma FirstCall(f: File)
    requires Timed(f)
    ensures After(f, 1) == Pull(f, f.quota, R.FRESH).(pos := |f.lines|)
    ensures Sound(After(f, 1)) && After(f, 1).events != []
    ensures After(f, 1).events[|After(f, 1).events| - 1].time == After(f, 1).last
    ensures 0 <= DurationOf(After(f, 1)) && 0 <= Period(f)
  {
    hide Pull;
    AfterNone(f);
    assert R.FRESH.(events := []) == R.FRESH;
    PullSound(f, f.quota, R.FRESH);
    PullEndsWithEvent(f, f.quota, R.FRESH);
    assert 0 <= (After(f, 1).looped + 1) * DurationOf(After(f, 1));
  }

  lemma NextCall(f: File, r: R.State)
    requires Timed(f) && r.pos == |f.lines|
    ensures Call(f, r) == Pull(f, f.quota, R.Wrap(r.(events := []))).(pos := |f.lines|)
  {
    hide Pull, Dry, Count, ProcessAll;
    var start := r.(events := []);
    TurnProgress(f, f.quota, start);
    assert f.lines[start.pos..Stop(f, f.quota, start.pos)] == [];
  }

  /** Every call repeats the first: `n` calls later, all is the same but `n` periods later. */
  lemma {:induction false} CallsRepeat(f: File, n: nat)
    requires Timed(f)
    ensures var a, b, k := After(f, 1), After(f, n + 1), n * (After(f, 1).looped + 1);
            Shifted(k, DurationOf(a), a, b) && SameLast(k, DurationOf(a), a, b) && b.pos == |f.lines|
    ensures n * (After(f, 1).looped + 1) * DurationOf(After(f, 1)) == n * Period(f)
  {
    hide Pull, Timed, Call;
    TimedReturns(f);
    FirstCall(f);
    var a := After(f, 1);
    var d, w := DurationOf(a), a.looped + 1;
    Associates(n, w, d);
    if n > 0 {
      CallsRepeat(f, n - 1);
      var b := After(f, n);
      NextCall(f, b);
      var start := R.Wrap(b.(events := []));
      var k := n * w;
      assert (n - 1) * w + w == k;
      StartsShifted(k, d, b, a);
      PullShifted(f, f.quota, k, d, R.FRESH, start);
      MoveShifted(k, d, Pull(f, f.quota, R.FRESH), Pull(f, f.quota, start), |f.lines|);
      assert After(f, n + 1) == Call(f, b);
    } else {
      assert 0 * w == 0 && 0 * d == 0;
    }
  }

  lemma Associates(n: nat, w: nat, d: int)
    ensures n * w * d == n * (w * d)
  {
  }

  lemma StartsShifted(k: nat, d: int, b: R.State, a: R.State)
    requires 0 < k && b.looped + 1 == k && (0 < b.looped ==> b.duration == d) && (b.looped == 0 ==> b.last == d)
    ensures Shifted(k, d, R.FRESH, R.Wrap(b.(events := [])))
  {
  }

  // ---- exactly when the order is kept ----

  /** What the second call loads is not behind the watermark of the first, which the first call alone can tell. */
  ghost predicate KeepsUp(f: File)
    requires Returns(f)
  {
    forall e | e in After(f, 1).events :: After(f, 1).last <= e.time + Period(f)
  }

  lemma Repeats(f: File, n: nat)
    requires Timed(f)
    ensures var a, b := After(f, 1), After(f, n + 1);
            && b.last == a.last + n * Period(f) && |b.events| == |a.events|
            && forall i | 0 <= i < |a.events| :: b.events[i] == Later(a.events[i], n * Period(f))
    ensures 0 <= n * Period(f)
  {
    hide After, Period;
    TimedReturns(f);
    FirstCall(f);
    CallsRepeat(f, n);
    assert 0 <= n * Period(f);
  }

  lemma WatermarkNeverDecreases(f: File, m: nat, n: nat)
    requires Timed(f) && m <= n
    ensures After(f, m).last <= After(f, n).last
  {
    hide After, Period, Sound;
    FirstCall(f);
    AfterNone(f);
    if 0 < m {
      Repeats(f, m - 1);
      Repeats(f, n - 1);
      assert (n - 1) * Period(f) == (m - 1) * Period(f) + (n - m) * Period(f) && 0 <= (n - m) * Period(f);
    } else if 0 < n {
      Repeats(f, n - 1);
      FirstNonnegative(f);
    }
  }

  lemma FirstNonnegative(f: File)
    requires Timed(f)
    ensures 0 <= After(f, 1).last && forall e | e in After(f, 1).events :: 0 <= e.time
  {
    hide After, Period;
    FirstCall(f);
  }

  lemma LoadsAhead(f: File, n: nat)
    requires Timed(f) && KeepsUp(f)
    ensures forall e | e in After(f, n + 1).events :: After(f, n).last <= e.time
  {
    hide After, Period, Timed;
    TimedReturns(f);
    AfterNone(f);
    FirstNonnegative(f);
    Repeats(f, n);
    var a, b, p := After(f, 1), After(f, n + 1), Period(f);
    if n > 0 {
      Repeats(f, n - 1);
      assert n * p == (n - 1) * p + p;
    }
    forall e | e in b.events ensures After(f, n).last <= e.time {
      var i :| 0 <= i < |b.events| && b.events[i] == e;
      assert a.events[i] in a.events;
    }
  }

  /** A file that does not keep up: every call but the first loads an event earlier than one of the call before. */
  lemma FallsBehind(f: File, n: nat) returns (top: Event, late: Event)
    requires Timed(f) && !KeepsUp(f)
    ensures top in After(f, n + 1).events && top.time == After(f, n + 1).last
    ensures late in After(f, n + 2).events && late.time < top.time
  {
    hide After, Period, Timed, Sound;
    TimedReturns(f);
    FirstCall(f);
    var a, p := After(f, 1), Period(f);
    var e :| e in a.events && !(a.last <= e.time + p);
    var i :| 0 <= i < |a.events| && a.events[i] == e;
    var last := |a.events| - 1;
    RepeatsAt(f, n, last);
    RepeatsAt(f, n + 1, i);
    OneMorePeriod(n, p);
    top, late := After(f, n + 1).events[last], After(f, n + 2).events[i];
  }

  lemma RepeatsAt(f: File, n: nat, i: nat)
    requires Timed(f) && i < |After(f, 1).events|
    ensures var b := After(f, n + 1);
            && b.last == After(f, 1).last + n * Period(f) && |b.events| == |After(f, 1).events|
            && b.events[i].time == After(f, 1).events[i].time + n * Period(f)
  {
    hide After, Period, Timed;
    Repeats(f, n);
  }

  lemma OneMorePeriod(n: nat, p: int)
    ensures (n + 1) * p == n * p + p
  {
  }

  /**
   On every file from which loadEvents returns, malformed lines or not: no call ever loads an event earlier
   than the watermark it began with if and only if the first call shows that the second does not.
   */
  lemma OrderKeptIff(f: File)
    requires Timed(f)
    ensures KeepsUp(f) <==> forall n: nat, e | e in After(f, n + 1).events :: After(f, n).last <= e.time
  {
    hide After, Timed, KeepsUp;
    TimedReturns(f);
    if KeepsUp(f) {
      forall n: nat, e | e in After(f, n + 1).events ensures After(f, n).last <= e.time {
        LoadsAhead(f, n);
      }
    } else {
      var top, late := FallsBehind(f, 0);
      assert late in After(f, 1 + 1).events && !(After(f, 1).last <= late.time);
    }
  }

  /** Where every line is a record, keeping up can be told from the times of the file. */
  lemma KeepsUpIff(f: File)
    requires Timed(f) && AllGood(f)
    ensures R.Startable(Plain(f)) && (KeepsUp(f) <==> R.KeepsUp(Plain(f)))
  {
    hide After, R.After, KeepsUp, R.KeepsUp;
    StartableIs(f);
    OrderKeptIff(f);
    R.OrderKeptIff(Plain(f));
    var src := Plain(f);
    if KeepsUp(f) {
      forall n: nat, e | e in R.After(src, n + 1).events ensures R.After(src, n).last <= e.time {
        AfterIsReplay(f, n);
        AfterIsReplay(f, n + 1);
        assert e in After(f, n + 1).events;
      }
    } else if R.KeepsUp(src) {
      forall n: nat, e | e in After(f, n + 1).events ensures After(f, n).last <= e.time {
        AfterIsReplay(f, n);
        AfterIsReplay(f, n + 1);
        assert e in R.After(src, n + 1).events;
      }
    }
  }

  lemma StartableIs(f: File)
    requires Timed(f) && AllGood(f)
    ensures R.Startable(Plain(f))
  {
    hide R.Passes;
    GoodIs(f.lines);
    var i := LapFound(f, f.quota, 0);
    R.NthIs(Plain(f), i);
  }

  lemma {:induction false} LoadedNonnegative(f: File, n: nat)
    requires Timed(f)
    ensures forall e | e in LoadedBy(f, n) :: 0 <= e.time
  {
    hide After, Timed, Period;
    TimedReturns(f);
    if n > 0 {
      LoadedNonnegative(f, n - 1);
      LoadedOneMore(f, n - 1);
      EventsNonnegative(f, n - 1);
    }
  }

  lemma EventsNonnegative(f: File, n: nat)
    requires Timed(f)
    ensures forall e | e in After(f, n + 1).events :: 0 <= e.time
  {
    hide After, Period, Timed;
    TimedReturns(f);
    FirstNonnegative(f);
    Repeats(f, n);
    var b := After(f, n + 1);
    forall e | e in b.events ensures 0 <= e.time {
      var i :| 0 <= i < |b.events| && b.events[i] == e;
      assert After(f, 1).events[i] in After(f, 1).events;
    }
  }
}
