/**
 Events files in time order that have malformed lines. They keep up unless three malformed lines in a row come before a
 record: a lap of a call that ends in such a gap may be followed by one that reads past it.
 */
module Gaps {
  import opened Events
  import opened Reads
  import R = Replay

  /** The records are in time order. */
  ghost predicate TimeOrdered(f: File) {
    forall i, j | 0 <= i < j < |f.lines| && f.lines[i].Some? && f.lines[j].Some? ::
      f.lines[i].value.start <= f.lines[j].value.start
  }

  /** No three malformed lines in a row come before a record. */
  ghost predicate Gapless(f: File) {
    forall i, j | 0 <= i && i + 3 <= j < |f.lines| && f.lines[j].Some? ::
      f.lines[i].Some? || f.lines[i + 1].Some? || f.lines[i + 2].Some?
  }

  /** The time of a record in its file, in milliseconds. */
  function Time(rec: R.EventRecord): int { R.Truncate(rec.start * 1000.0) }

  /** No record before line `p` is later than `d`. */
  ghost predicate Within(f: File, p: nat, d: int)
    requires p <= |f.lines|
  {
    forall j | 0 <= j < p && f.lines[j].Some? :: Time(f.lines[j].value) <= d
  }

  // ---- laps that stay before a gap ----

  /** From here on no record behind line `p` is read, although no more than `need` lines are needed to get over it. */
  ghost predicate Confined(f: File, p: nat, need: nat, pos: nat) {
    || (forall j | p <= j < |f.lines| :: f.lines[j].None?)
    || (&& need <= 1 && p < |f.lines| && f.lines[p].None?
        && (pos <= p || (pos == p + 1 < |f.lines| && f.lines[p + 1].None?)))
    || (&& need == 2 && p + 1 < |f.lines| && f.lines[p].None? && f.lines[p + 1].None?
        && exists i :: pos <= i < p && LinePasses(f, i))
  }

  lemma {:induction false} NothingGood(lines: seq<Option<R.EventRecord>>)
    ensures Good(lines) == [] <==> forall i | 0 <= i < |lines| :: lines[i].None?
  {
    if lines != [] {
      NothingGood(lines[1..]);
      assert forall i | 1 <= i < |lines| :: lines[i] == lines[1..][i - 1];
    }
  }

  /** The records of a batch are no later than `d` when those of its lines are not. */
  lemma BatchWithin(f: File, need: nat, pos: nat, p: nat, d: int)
    requires pos <= |f.lines| && p <= |f.lines| && Within(f, p, d)
    requires forall j | pos <= j < Stop(f, need, pos) && p <= j :: f.lines[j].None?
    ensures forall rec | rec in Batch(f, need, pos) :: Time(rec) <= d
  {
    hide Good, Time;
    var stop := Stop(f, need, pos);
    forall rec | rec in Batch(f, need, pos) ensures Time(rec) <= d {
      var k := GoodFrom(f.lines[pos..stop], rec);
      assert f.lines[pos + k] == Some(rec);
    }
  }

  lemma TurnConfined(f: File, p: nat, d: int, need: nat, r: R.State)
    requires r.pos <= |f.lines| && p <= |f.lines| && 0 < need && Confined(f, p, need, r.pos) && Within(f, p, d)
    ensures var (need', r') := Turn(f, need, r); Confined(f, p, need', r'.pos)
    ensures forall rec | rec in Batch(f, need, r.pos) :: Time(rec) <= d
  {
    hide Good, Count, R.Process, ProcessAll, LinePasses, Plain, Within;
    var stop, recs := Stop(f, need, r.pos), Batch(f, need, r.pos);
    NothingGood(f.lines[r.pos..stop]);
    BatchWithin(f, need, r.pos, p, d);
    if need == 2 && exists i :: r.pos <= i < p && LinePasses(f, i) {
      var i :| r.pos <= i < p && LinePasses(f, i);
      if i < stop {
        PassingCounts(f, need, r.pos, i);
      }
    }
  }

  lemma PassingCounts(f: File, need: nat, pos: nat, i: nat)
    requires pos <= |f.lines| && pos <= i < Stop(f, need, pos) && LinePasses(f, i)
    ensures 0 < Count(Plain(f), Batch(f, need, pos))
  {
    hide Good, Count;
    var chunk := f.lines[pos..Stop(f, need, pos)];
    assert chunk[i - pos] == f.lines[i];
    GoodHas(chunk, i - pos);
    CountSees(Plain(f), Batch(f, need, pos), f.lines[i].value);
  }

  /** The watermark after some records is the time of the last one, shifted. */
  lemma LastIs(src: R.Source, recs: seq<R.EventRecord>, r: R.State)
    requires recs != [] && TimedRecords(recs) && 0 <= R.Shift(r)
    ensures ProcessAll(src, recs, r).last == Time(recs[|recs| - 1]) + R.Shift(r)
    ensures 0 <= Time(recs[|recs| - 1])
  {
    hide R.Truncate, R.Passes;
    var rec, front := recs[|recs| - 1], recs[..|recs| - 1];
    ProcessAllKeepsPass(src, front, r);
    R.TruncateAddsUp(rec.start * 1000.0, R.Shift(r));
  }

  /**
   A call whose laps after the first stay before line `p` leaves a watermark that is at most one duration after the
   start of its last lap.
   */
  lemma {:induction false} ConfinedPull(f: File, p: nat, d: nat, need: nat, r: R.State)
    requires Timed(f) && r.pos <= |f.lines| && Going(f, need, r.pos) && p <= |f.lines|
    requires Confined(f, p, need, r.pos) && Within(f, p, d)
    requires 0 < r.looped && r.duration == d && r.last <= (r.looped + 1) * d
    ensures var s := Pull(f, need, r); 0 < s.looped && s.duration == d && s.last <= (s.looped + 1) * d
    decreases need, Dry(f, need, r.pos), |f.lines| - r.pos
  {
    hide Good, Count, ProcessAll, Pull, Dry, Timed, Going, Confined, Within, Time, Plain;
    if need == 0 {
      PullDone(f, r);
    } else {
      TurnProgress(f, need, r);
      TurnConfined(f, p, d, need, r);
      BatchTimed(f, need, r.pos);
      var recs := Batch(f, need, r.pos);
      assert (r.looped + 1) * d == r.looped * d + d && 0 <= r.looped * d;
      if recs != [] {
        LastIs(Plain(f), recs, r);
        ProcessAllKeepsPass(Plain(f), recs, r);
      } else {
        assert (r.looped + 1) * d <= (r.looped + 2) * d;
      }
      var (need', r') := Turn(f, need, r);
      ConfinedPull(f, p, d, need', r');
    }
  }

  // ---- the first lap ----

  lemma {:induction false} LastGood(lines: seq<Option<R.EventRecord>>) returns (k: nat)
    requires Good(lines) != []
    ensures k < |lines| && lines[k] == Some(Good(lines)[|Good(lines)| - 1])
    ensures forall j | k < j < |lines| :: lines[j].None?
  {
    NothingGood(lines[1..]);
    if Good(lines[1..]) == [] {
      k := 0;
      assert forall j | 0 < j < |lines| :: lines[j] == lines[1..][j - 1];
    } else {
      k := LastGood(lines[1..]);
      k := k + 1;
      assert forall j | 0 < j < |lines| :: lines[j] == lines[1..][j - 1];
    }
  }

  lemma TimeGrows(a: R.EventRecord, b: R.EventRecord)
    requires 0.0 <= a.start <= b.start
    ensures Time(a) <= Time(b)
  {
  }

  /** In time order, no record up to the end of a batch is later than the batch's last. */
  lemma BatchReaches(f: File, need: nat, pos: nat)
    requires Timed(f) && TimeOrdered(f) && pos <= |f.lines| && Batch(f, need, pos) != []
    ensures var recs := Batch(f, need, pos); Within(f, Stop(f, need, pos), Time(recs[|recs| - 1]))
  {
    hide Good, Time, Returns;
    var stop, recs := Stop(f, need, pos), Batch(f, need, pos);
    var chunk := f.lines[pos..stop];
    var k := LastGood(chunk);
    assert forall j | pos <= j < stop :: f.lines[j] == chunk[j - pos];
    assert f.lines[pos + k] == chunk[k];
    forall j | 0 <= j < stop && f.lines[j].Some? ensures Time(f.lines[j].value) <= Time(recs[|recs| - 1]) {
      TimeGrows(f.lines[j].value, recs[|recs| - 1]);
    }
  }

  /** Where the first lap ends, the later laps do not get past, in a file without gaps. */
  lemma GapConfines(f: File, need: nat, p: nat)
    requires Gapless(f) && p <= |f.lines| && 0 < need && Batch(f, need, p) == []
    requires need == 2 ==> exists i :: 0 <= i < p && LinePasses(f, i)
    ensures Confined(f, p, need, 0)
  {
    hide Good, LinePasses;
    var stop := Stop(f, need, p);
    NothingGood(f.lines[p..stop]);
    assert forall j | p <= j < stop :: f.lines[j] == f.lines[p..stop][j - p];
    if need >= 3 && p + need <= |f.lines| {
      assert f.lines[p].None? && f.lines[p + 1].None? && f.lines[p + 2].None?;
      assert forall j | p + 3 <= j < |f.lines| :: f.lines[j].None?;
    }
  }

  /** The first lap of a call. */
  lemma {:induction false} FirstLap(f: File, need: nat, r: R.State)
    requires Timed(f) && TimeOrdered(f) && Gapless(f) && r.pos <= |f.lines| && Going(f, need, r.pos)
    requires r.looped == 0 && 0 <= r.last && Within(f, r.pos, r.last)
    requires LapNeed(f, need, r.pos) == LapNeed(f, f.quota, 0)
    requires need < f.quota ==> exists i :: 0 <= i < r.pos && LinePasses(f, i)
    ensures var s := Pull(f, need, r); s.last <= (s.looped + 1) * DurationOf(s)
    decreases need, Dry(f, need, r.pos), |f.lines| - r.pos
  {
    hide Good, Count, ProcessAll, Pull, Dry, Timed, TimeOrdered, Gapless, Going, Within, Time, LinePasses, Plain,
         Confined;
    if need == 0 {
      PullDone(f, r);
    } else {
      TurnProgress(f, need, r);
      var recs := Batch(f, need, r.pos);
      var (need', r') := Turn(f, need, r);
      if recs == [] {
        LapIsShort(f, need);
        GapConfines(f, need, r.pos);
        ConfinedPull(f, r.pos, r.last, need', r');
      } else {
        BatchTimed(f, need, r.pos);
        BatchReaches(f, need, r.pos);
        LastIs(Plain(f), recs, r);
        ProcessAllKeepsPass(Plain(f), recs, r);
        if need' < need {
          CountedLine(f, need, r.pos);
        }
        FirstLap(f, need', r');
      }
    }
  }

  lemma LapIsShort(f: File, need: nat)
    requires Timed(f) && LapNeed(f, f.quota, 0) == need
    ensures need < f.quota
  {
    hide LapNeed;
  }

  lemma CountedLine(f: File, need: nat, pos: nat)
    requires pos <= |f.lines| && 0 < Count(Plain(f), Batch(f, need, pos))
    ensures exists i :: pos <= i < Stop(f, need, pos) && LinePasses(f, i)
  {
    hide Good, Count;
    var rec := CountedOne(Plain(f), Batch(f, need, pos));
    var k := GoodFrom(f.lines[pos..Stop(f, need, pos)], rec);
    assert LinePasses(f, pos + k);
  }

  /**
   A file in time order keeps up if no three malformed lines in a row come before a record: so every run of the worker
   releases its events in time order.
   */
  lemma OrderedKeepsUp(f: File)
    requires Timed(f) && TimeOrdered(f) && Gapless(f)
    ensures KeepsUp(f)
  {
    hide Pull, LapNeed, Sound, TimeOrdered, Gapless;
    FirstCall(f);
    FirstNonnegative(f);
    NothingLeft(f, f.quota);
    FirstLap(f, f.quota, R.FRESH);
  }

  // ---- a file in time order that does not keep up ----

  /** A connection of another machine, an early event and a late one. */
  const OTHER := R.EventRecord(2, 0, "SEND", 0, 0.0, 0.001)
  const EARLY := R.EventRecord(1, 1, "SEND", 0, 0.0, 0.001)
  const LATE := R.EventRecord(1, 2, "SEND", 0, 0.0, 0.1)

  function Times(x: Option<R.EventRecord>, n: nat): seq<Option<R.EventRecord>> { seq(n, i => x) }

  const GAP := File(
    Times(Some(OTHER), 7) + Times(Some(EARLY), 3) + Times(None, 7) + Times(Some(LATE), 4), {1}, {"SEND"}, 10)

  lemma {:induction false} GoodJoins(a: seq<Option<R.EventRecord>>, b: seq<Option<R.EventRecord>>)
    ensures Good(a + b) == Good(a) + Good(b)
  {
    if a == [] {
      assert a + b == b;
    } else {
      assert (a + b)[1..] == a[1..] + b;
      GoodJoins(a[1..], b);
    }
  }

  /** A batch of `m` malformed lines between records `x` and `y`. */
  lemma MixedBatch(f: File, need: nat, pos: nat, x: R.EventRecord, k: nat, m: nat, y: R.EventRecord, l: nat)
    requires pos + need <= |f.lines|
    requires f.lines[pos..pos + need] == Times(Some(x), k) + Times(None, m) + Times(Some(y), l)
    ensures Batch(f, need, pos) == seq(k, i => x) + seq(l, i => y)
    ensures Count(Plain(f), Batch(f, need, pos))
         == (if R.Passes(Plain(f), x) then k else 0) + (if R.Passes(Plain(f), y) then l else 0)
  {
    hide Good, Count, R.Passes;
    GoodJoins(Times(Some(x), k) + Times(None, m), Times(Some(y), l));
    GoodJoins(Times(Some(x), k), Times(None, m));
    GoodIs(Times(Some(x), k));
    GoodIs(Times(Some(y), l));
    NothingGood(Times(None, m));
    CountJoins(Plain(f), seq(k, i => x), seq(l, i => y));
    CountTimes(Plain(f), x, k);
    CountTimes(Plain(f), y, l);
  }

  lemma {:induction false} CountJoins(src: R.Source, a: seq<R.EventRecord>, b: seq<R.EventRecord>)
    ensures Count(src, a + b) == Count(src, a) + Count(src, b)
    decreases |b|
  {
    if b == [] {
      assert a + b == a;
    } else {
      assert (a + b)[..|a + b| - 1] == a + b[..|b| - 1];
      CountJoins(src, a, b[..|b| - 1]);
    }
  }

  lemma {:induction false} CountTimes(src: R.Source, x: R.EventRecord, n: nat)
    ensures Count(src, seq(n, i => x)) == if R.Passes(src, x) then n else 0
  {
    if n > 0 {
      assert seq(n, i => x)[..n - 1] == seq(n - 1, i => x);
      CountTimes(src, x, n - 1);
    }
  }

  /** One turn over a batch with records: what is needed then, and the watermark. */
  lemma BatchTurn(f: File, need: nat, r: R.State)
    requires r.pos + need <= |f.lines| && 0 < need && Batch(f, need, r.pos) != [] && 0 <= R.Shift(r)
    requires TimedRecords(Batch(f, need, r.pos))
    ensures var recs, (n, s) := Batch(f, need, r.pos), Turn(f, need, r);
            && n == need - Count(Plain(f), recs) && s.pos == r.pos + need
            && s.looped == r.looped && s.duration == r.duration
            && s.last == Time(recs[|recs| - 1]) + R.Shift(r)
            && LapNeed(f, need, r.pos) == LapNeed(f, n, s.pos)
  {
    hide Good, Count, ProcessAll, Time, Plain;
    LastIs(Plain(f), Batch(f, need, r.pos), r);
    ProcessAllKeepsPass(Plain(f), Batch(f, need, r.pos), r);
  }

  lemma Moments()
    ensures Time(OTHER) == Time(EARLY) == 1 && Time(LATE) == 100
    ensures !R.Passes(Plain(GAP), OTHER) && R.Passes(Plain(GAP), EARLY) && R.Passes(Plain(GAP), LATE)
  {
  }

  /**
   The lines of GAP: seven records of another machine, three early events, seven malformed lines, four late events.
   */
  lemma GapLines()
    ensures |GAP.lines| == 21
    ensures GAP.lines[0..10] == Times(Some(OTHER), 7) + Times(None, 0) + Times(Some(EARLY), 3)
    ensures GAP.lines[10..17] == Times(Some(OTHER), 0) + Times(None, 7) + Times(Some(LATE), 0)
    ensures GAP.lines[0..7] == Times(Some(OTHER), 7) + Times(None, 0) + Times(Some(LATE), 0)
    ensures GAP.lines[7..14] == Times(Some(EARLY), 3) + Times(None, 4) + Times(Some(LATE), 0)
    ensures GAP.lines[14..18] == Times(Some(OTHER), 0) + Times(None, 3) + Times(Some(LATE), 1)
    ensures GAP.lines[18..21] == Times(Some(LATE), 3) + Times(None, 0) + Times(Some(LATE), 0)
  {
  }

  lemma GapBatches()
    ensures Plain(GAP).quota == 10 && |GAP.lines| == 21
    ensures Batch(GAP, 10, 0) == seq(7, i => OTHER) + seq(3, i => EARLY) && Count(Plain(GAP), Batch(GAP, 10, 0)) == 3
    ensures Batch(GAP, 7, 10) == []
    ensures Batch(GAP, 7, 0) == seq(7, i => OTHER) && Count(Plain(GAP), Batch(GAP, 7, 0)) == 0
    ensures Batch(GAP, 7, 7) == seq(3, i => EARLY) && Count(Plain(GAP), Batch(GAP, 7, 7)) == 3
    ensures Batch(GAP, 4, 14) == seq(1, i => LATE) && Count(Plain(GAP), Batch(GAP, 4, 14)) == 1
    ensures Batch(GAP, 3, 18) == seq(3, i => LATE) && Count(Plain(GAP), Batch(GAP, 3, 18)) == 3
  {
    hide Good, Count, Batch, Plain;
    GapLines();
    Moments();
    assert Plain(GAP).quota == 10 by { QuotaIs(GAP); }
    MixedBatch(GAP, 10, 0, OTHER, 7, 0, EARLY, 3);
    MixedBatch(GAP, 7, 10, OTHER, 0, 7, LATE, 0);
    MixedBatch(GAP, 7, 0, OTHER, 7, 0, LATE, 0);
    MixedBatch(GAP, 7, 7, EARLY, 3, 4, LATE, 0);
    MixedBatch(GAP, 4, 14, OTHER, 0, 3, LATE, 1);
    MixedBatch(GAP, 3, 18, LATE, 3, 0, LATE, 0);
  }

  lemma QuotaIs(f: File)
    ensures Plain(f).quota == f.quota
  {
  }

  /** The first lap of a call stops in the gap, the second reads past it. */
  lemma GapTurns() returns (r: R.State, s: R.State)
    ensures r.pos <= |GAP.lines| && Going(GAP, 7, r.pos) && Turn(GAP, 10, R.FRESH) == (7, r)
    ensures Returns(GAP) && Going(GAP, 10, 0) && Pull(GAP, 10, R.FRESH) == Pull(GAP, 7, r) == s
    ensures s.looped == 1 && s.duration == 1 && s.last == 101
  {
    hide Good, Count, ProcessAll, Time, Batch, Plain, Turn, Pull, LapNeed;
    GapBatches();
    Moments();
    BatchTurn(GAP, 10, R.FRESH);
    r := Turn(GAP, 10, R.FRESH).1;
    EmptyTurn(GAP, 7, r);
    var t := R.Wrap(r);
    BatchTurn(GAP, 7, t);
    var u := Turn(GAP, 7, t).1;
    BatchTurn(GAP, 7, u);
    var v := Turn(GAP, 7, u).1;
    BatchTurn(GAP, 4, v);
    var w := Turn(GAP, 4, v).1;
    BatchTurn(GAP, 3, w);
    s := Turn(GAP, 3, w).1;
    NothingNeeded(GAP, s.pos);
    TurnProgress(GAP, 10, R.FRESH);
    TurnProgress(GAP, 7, r);
    TurnProgress(GAP, 7, t);
    TurnProgress(GAP, 7, u);
    TurnProgress(GAP, 4, v);
    TurnProgress(GAP, 3, w);
    PullDone(GAP, s);
  }

  lemma EmptyTurn(f: File, need: nat, r: R.State)
    requires r.pos <= |f.lines| && 0 < need && Batch(f, need, r.pos) == []
    ensures Turn(f, need, r) == (need, R.Wrap(r)) && LapNeed(f, need, r.pos) == need
  {
  }

  lemma {:induction false} PullGrows(f: File, need: nat, r: R.State)
    requires r.pos <= |f.lines| && Going(f, need, r.pos)
    ensures r.events <= Pull(f, need, r).events
    decreases need, Dry(f, need, r.pos), |f.lines| - r.pos
  {
    hide Going, Good, Count, ProcessAll, Pull, Dry;
    if need == 0 {
      PullDone(f, r);
    } else {
      TurnProgress(f, need, r);
      ProcessAllGrows(Plain(f), Batch(f, need, r.pos), r);
      var (need', r') := Turn(f, need, r);
      PullGrows(f, need', r');
    }
  }

  lemma {:induction false} ProcessAllGrows(src: R.Source, recs: seq<R.EventRecord>, r: R.State)
    ensures r.events <= ProcessAll(src, recs, r).events
  {
    if recs != [] {
      ProcessAllGrows(src, recs[..|recs| - 1], r);
    }
  }

  /** The event of the last record of a batch, when it passes. */
  lemma LastEvent(src: R.Source, recs: seq<R.EventRecord>, r: R.State)
    requires recs != [] && TimedRecords(recs) && 0 <= R.Shift(r) && R.Passes(src, recs[|recs| - 1])
    ensures exists e :: e in ProcessAll(src, recs, r).events && e.time == ProcessAll(src, recs, r).last
  {
    hide R.Truncate, R.Passes;
    var rec, s := recs[|recs| - 1], ProcessAll(src, recs[..|recs| - 1], r);
    ProcessAllKeepsPass(src, recs[..|recs| - 1], r);
    R.TruncateAddsUp(rec.start * 1000.0, R.Shift(r));
    assert R.MakeEvent(rec, R.Shift(s)) in ProcessAll(src, recs, r).events;
  }

  /**
   Time order is not enough: this file, of which each call takes ten events, is in time order and does not keep up.
   */
  lemma OrderedFileFallsBehind()
    ensures TimeOrdered(GAP) && Timed(GAP) && !KeepsUp(GAP)
  {
    hide Good, Count, ProcessAll, Time, Batch, Plain, Turn, Pull, LapNeed;
    assert TimeOrdered(GAP);
    var r, s := GapTurns();
    GapBatches();
    Moments();
    FirstCall(GAP);
    PullGrows(GAP, 7, r);
    TurnIs(GAP, 10, R.FRESH);
    LastEvent(Plain(GAP), Batch(GAP, 10, 0), R.FRESH);
    BatchTurn(GAP, 10, R.FRESH);
  }

  lemma TurnIs(f: File, need: nat, r: R.State)
    requires r.pos <= |f.lines| && 0 < need && Batch(f, need, r.pos) != []
    ensures Turn(f, need, r).1.events == ProcessAll(Plain(f), Batch(f, need, r.pos), r).events
    ensures Turn(f, need, r).1.last == ProcessAll(Plain(f), Batch(f, need, r.pos), r).last
  {
  }
}
