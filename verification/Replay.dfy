/**
 What FileWorker::loadEvents loads, one record at a time: the events file is replayed for ever, and pass k is shifted
 by k times the duration of the first pass. The method in FileWorker.dfy reads in batches and is proved to load
 exactly this.
 */
module Replay {
  import opened Events
  import opened Division

  /** A line of the events file with its numbers read: `gap` and `start` are in seconds. */
  datatype EventRecord = EventRecord(connID: int, eventID: int, ip: string, value: int, gap: real, start: real)

  /** The records of the file, the filters, and how many events one call is to load. */
  datatype Source = Source(recs: seq<EventRecord>, conns: set<int>, ips: set<string>, quota: nat)

  /** Where the replay is; `events` are those loaded by the current call. */
  datatype State = State(pos: nat, looped: nat, duration: int, last: int, count: nat, events: seq<Event>)

  const FRESH := State(0, 0, 0, 0, 0, [])

  /** Conversion of a double to an integer: towards zero. */
  function Truncate(x: real): int {
    if x >= 0.0 then x.Floor else -((-x).Floor)
  }

  predicate Passes(src: Source, rec: EventRecord) {
    rec.connID in src.conns && rec.ip in src.ips
  }

  function Shift(r: State): int { r.looped * r.duration }

  function MakeEvent(rec: EventRecord, shift: int): Event {
    Event(Truncate(rec.start * 1000.0) + shift, Truncate(rec.gap * 1000.0),
          if rec.ip == "SEND" then SEND else RECV, rec.connID, rec.eventID, rec.value)
  }

  /** The body of the record loop of loadEvents. */
  function Process(src: Source, rec: EventRecord, r: State): State {
    var r' := r.(last := Truncate(rec.start * 1000.0 + Shift(r) as real));
    if Passes(src, rec)
    then r'.(events := r.events + [MakeEvent(rec, Shift(r))], count := if r.looped == 0 then r.count + 1 else r.count)
    else r'
  }

  lemma ProcessIs(src: Source, rec: EventRecord, r: State)
    ensures var r', passes := Process(src, rec, r), Passes(src, rec);
            && r'.pos == r.pos && r'.looped == r.looped && r'.duration == r.duration
            && r'.last == Truncate(rec.start * 1000.0 + Shift(r) as real)
            && r'.events == (if passes then r.events + [MakeEvent(rec, Shift(r))] else r.events)
            && r'.count == (if passes && r.looped == 0 then r.count + 1 else r.count)
  {
  }

  function Take(src: Source, r: State): State
    requires r.pos < |src.recs|
  {
    Process(src, src.recs[r.pos], r).(pos := r.pos + 1)
  }

  function Wrap(r: State): State {
    r.(pos := 0, looped := r.looped + 1, duration := if r.looped == 0 then r.last else r.duration)
  }

  /** How many of the first `k` records pass both filters. */
  function Passing(src: Source, k: nat): nat
    requires k <= |src.recs|
  {
    if k == 0 then 0 else Passing(src, k - 1) + (if Passes(src, src.recs[k - 1]) then 1 else 0)
  }

  /** Whether the file has to be started over before another record passes. */
  function Laps(src: Source, pos: nat): nat
    requires pos <= |src.recs|
  {
    if Passing(src, pos) < Passing(src, |src.recs|) then 0 else 1
  }

  /** Load `need` more events, starting over at the end of the file. */
  function Pull(src: Source, need: nat, r: State): State
    requires r.pos <= |src.recs| && 0 < Passing(src, |src.recs|)
    decreases need, Laps(src, r.pos), |src.recs| - r.pos
  {
    if need == 0 then r
    else if r.pos == |src.recs| then Pull(src, need, Wrap(r))
    else Pull(src, if Passes(src, src.recs[r.pos]) then need - 1 else need, Take(src, r))
  }

  lemma TakeFacts(src: Source, r: State)
    requires r.pos < |src.recs|
    ensures var r', passes := Take(src, r), Passes(src, src.recs[r.pos]);
            && r'.pos == r.pos + 1 && r'.looped == r.looped && r'.duration == r.duration
            && r'.events == r.events + (if passes then [MakeEvent(src.recs[r.pos], Shift(r))] else [])
            && Passing(src, r'.pos) == Passing(src, r.pos) + (if passes then 1 else 0)
  {
  }

  lemma PullTakes(src: Source, need: nat, r: State)
    requires r.pos < |src.recs| && 0 < Passing(src, |src.recs|) && 0 < need
    ensures Take(src, r).pos <= |src.recs|
    ensures Pull(src, need, r) == Pull(src, if Passes(src, src.recs[r.pos]) then need - 1 else need, Take(src, r))
  {
  }

  lemma PullWraps(src: Source, need: nat, r: State)
    requires r.pos == |src.recs| && 0 < Passing(src, |src.recs|) && 0 < need
    ensures Pull(src, need, r) == Pull(src, need, Wrap(r))
    ensures Wrap(r).pos == 0 && Wrap(r).events == r.events && Laps(src, 0) < Laps(src, r.pos)
  {
  }

  /** One call of loadEvents; its last read has no limit, so the rest of the pass is read and thrown away. */
  function Call(src: Source, r: State): State
    requires r.pos <= |src.recs| && 0 < Passing(src, |src.recs|)
  {
    Pull(src, src.quota, r.(events := [])).(pos := |src.recs|)
  }

  /** The state after `n` calls. */
  function After(src: Source, n: nat): (r: State)
    requires 0 < Passing(src, |src.recs|)
    ensures r.pos <= |src.recs|
  {
    if n == 0 then FRESH else Call(src, After(src, n - 1))
  }

  /** One turn of the replay: the next record, or the file's start over. */
  function Step(src: Source, r: State): (r': State)
    requires r.pos <= |src.recs|
    ensures r'.pos <= |src.recs|
  {
    if r.pos == |src.recs| then Wrap(r) else Take(src, r)
  }

  function Steps(src: Source, m: nat, r: State): (r': State)
    requires r.pos <= |src.recs|
    ensures r'.pos <= |src.recs|
  {
    if m == 0 then r else Step(src, Steps(src, m - 1, r))
  }

  // ---- when a call ends ----

  lemma {:induction false} StepsFromNext(src: Source, m: nat, r: State)
    requires r.pos <= |src.recs|
    ensures Steps(src, m + 1, r) == Steps(src, m, Step(src, r))
  {
    hide Step;
    if m > 0 {
      StepsFromNext(src, m - 1, r);
    }
  }

  lemma {:induction false} PullIsSteps(src: Source, need: nat, r: State) returns (m: nat)
    requires r.pos <= |src.recs| && 0 < Passing(src, |src.recs|)
    ensures Steps(src, m, r) == Pull(src, need, r)
    ensures |Pull(src, need, r).events| == |r.events| + need
    decreases need, Laps(src, r.pos), |src.recs| - r.pos
  {
    if need == 0 {
      m := 0;
    } else if r.pos == |src.recs| {
      m := PullIsSteps(src, need, Wrap(r));
      StepsFromNext(src, m, r);
      m := m + 1;
    } else {
      TakeFacts(src, r);
      m := PullIsSteps(src, if Passes(src, src.recs[r.pos]) then need - 1 else need, Take(src, r));
      StepsFromNext(src, m, r);
      m := m + 1;
    }
  }

  lemma {:induction false} NothingPasses(src: Source, m: nat, r: State)
    requires r.pos <= |src.recs| && Passing(src, |src.recs|) == 0
    ensures Steps(src, m, r).events == r.events
  {
    if m > 0 {
      NothingPasses(src, m - 1, r);
      var last := Steps(src, m - 1, r);
      if last.pos < |src.recs| {
        TakeFacts(src, last);
        PassingGrows(src, last.pos + 1, |src.recs|);
      }
    }
  }

  /** A call that needs events gets them after some number of turns if and only if some record passes the filters. */
  lemma LoadEndsIff(src: Source, need: nat, r: State)
    requires r.pos <= |src.recs| && 0 < need
    ensures (exists m: nat :: |Steps(src, m, r).events| == |r.events| + need) <==> 0 < Passing(src, |src.recs|)
  {
    if 0 < Passing(src, |src.recs|) {
      var m := PullIsSteps(src, need, r);
      assert |Steps(src, m, r).events| == |r.events| + need;
    } else {
      forall m: nat ensures Steps(src, m, r).events == r.events {
        NothingPasses(src, m, r);
      }
    }
  }

  // ---- the records that pass ----

  lemma {:induction false} PassingGrows(src: Source, i: nat, j: nat)
    requires i <= j <= |src.recs|
    ensures Passing(src, i) <= Passing(src, j)
    decreases j
  {
    if i < j {
      PassingGrows(src, i, j - 1);
    }
  }

  /** How many events one whole pass loads. */
  function PerPass(src: Source): nat { Passing(src, |src.recs|) }

  function Seek(src: Source, k: nat, j: nat): (i: nat)
    requires k <= |src.recs| && Passing(src, k) <= j < PerPass(src)
    ensures k <= i < |src.recs| && Passes(src, src.recs[i]) && Passing(src, i) == j
    decreases |src.recs| - k
  {
    if Passes(src, src.recs[k]) && Passing(src, k) == j then k else Seek(src, k + 1, j)
  }

  /** The record that passes after `j` others. */
  function Nth(src: Source, j: nat): (i: nat)
    requires j < PerPass(src)
    ensures i < |src.recs| && Passes(src, src.recs[i]) && Passing(src, i) == j
  {
    Seek(src, 0, j)
  }

  lemma NthIs(src: Source, i: nat)
    requires i < |src.recs| && Passes(src, src.recs[i])
    ensures Passing(src, i) < PerPass(src) && Nth(src, Passing(src, i)) == i
  {
    hide Passing;
    PassedOne(src, i);
    PassingGrows(src, i + 1, |src.recs|);
    var k := Nth(src, Passing(src, i));
    PassedOne(src, k);
    if k < i {
      PassingGrows(src, k + 1, i);
    } else if i < k {
      PassingGrows(src, i + 1, k);
    }
  }

  lemma PassedOne(src: Source, i: nat)
    requires i < |src.recs|
    ensures Passing(src, i + 1) == Passing(src, i) + (if Passes(src, src.recs[i]) then 1 else 0)
  {
  }

  lemma NthGrows(src: Source, j: nat, j': nat)
    requires j <= j' < PerPass(src)
    ensures Nth(src, j) <= Nth(src, j')
  {
    if Nth(src, j') < Nth(src, j) {
      PassedOne(src, Nth(src, j'));
      PassingGrows(src, Nth(src, j') + 1, Nth(src, j));
    }
  }

  // ---- what the replay needs of the file ----

  /** The file's time of record `i`, in milliseconds. */
  function Time(src: Source, i: nat): int
    requires i < |src.recs|
  {
    Truncate(src.recs[i].start * 1000.0)
  }

  /** Times are nonnegative, some record passes the filters, and a call is to load something. */
  ghost predicate Startable(src: Source) {
    (forall i | 0 <= i < |src.recs| :: 0.0 <= src.recs[i].start) && 0 < PerPass(src) && 0 < src.quota
  }

  ghost predicate TimeOrdered(src: Source) {
    forall i, j | 0 <= i < j < |src.recs| :: src.recs[i].start <= src.recs[j].start
  }

  /** The record a call ends with. */
  function Final(src: Source): (i: nat)
    requires 0 < PerPass(src) && 0 < src.quota
    ensures i < |src.recs| && Passes(src, src.recs[i])
  {
    Nth(src, (src.quota - 1) % PerPass(src))
  }

  /** The passes a call goes through, of which the last is not finished. */
  function Rounds(src: Source): nat
    requires 0 < PerPass(src) && 0 < src.quota
  {
    (src.quota - 1) / PerPass(src) + 1
  }

  /** What the first pass lasts: up to the last of its records that is ever processed. */
  function Duration(src: Source): int
    requires 0 < PerPass(src) && 0 < src.quota
  {
    if src.quota <= PerPass(src) then Time(src, Final(src)) else Time(src, |src.recs| - 1)
  }

  /**
   The watermark of a call is never ahead of what the next one loads: a call needs no more than a pass, or no record
   that passes is earlier than the last one taken by more than the time of the last line.
   */
  ghost predicate KeepsUp(src: Source)
    requires 0 < PerPass(src) && 0 < src.quota
  {
    || src.quota <= PerPass(src)
    || forall i | 0 <= i < |src.recs| && Passes(src, src.recs[i]) ::
         Time(src, Final(src)) <= Time(src, |src.recs| - 1) + Time(src, i)
  }

  // ---- what a call loads, in closed form ----

  /** Event `i` of a call that begins with pass `k`: the records that pass, over and over, shifted by their pass. */
  function Nominal(src: Source, k: nat, i: nat): Event
    requires 0 < PerPass(src) && 0 < src.quota
  {
    MakeEvent(src.recs[Nth(src, i % PerPass(src))], (k + i / PerPass(src)) * Duration(src))
  }

  ghost predicate Listed(src: Source, k: nat, events: seq<Event>)
    requires 0 < PerPass(src) && 0 < src.quota
  {
    forall i | 0 <= i < |events| :: events[i] == Nominal(src, k, i)
  }

  /** Inside a call that began with pass `k`. */
  ghost predicate InCall(src: Source, k: nat, r: State)
    requires Startable(src)
  {
    && r.pos <= |src.recs| && k <= r.looped && |r.events| <= src.quota
    && |r.events| == (r.looped - k) * PerPass(src) + Passing(src, r.pos)
    && (0 < r.looped ==> r.duration == Duration(src))
    && (0 < r.pos ==> r.last == r.looped * Duration(src) + Time(src, r.pos - 1))
    && Listed(src, k, r.events)
  }

  lemma TruncateAddsUp(x: real, n: int)
    requires 0.0 <= x && 0 <= n
    ensures Truncate(x) + n == Truncate(x + n as real)
    ensures 0 <= Truncate(x)
  {
  }

  /** A conversion to an integer cuts off what is behind the point, of negative numbers too. */
  lemma TruncateIsTowardsZero(x: real)
    requires 0.0 <= x
    ensures Truncate(x) as real <= x < Truncate(x) as real + 1.0 && Truncate(-x) == -Truncate(x)
  {
  }

  lemma TimesNonnegative(src: Source)
    requires Startable(src)
    ensures forall i | 0 <= i < |src.recs| :: 0 <= Time(src, i)
    ensures 0 <= Duration(src)
  {
    hide Truncate, Passes, PerPass;
    var final := Final(src);
    forall i | 0 <= i < |src.recs| ensures 0 <= Time(src, i) {
      TruncateAddsUp(src.recs[i].start * 1000.0, 0);
    }
  }

  /** The code truncates an event's time before it adds the shift, and lastEventTime after: it makes no difference. */
  lemma SameTruncation(src: Source, r: State)
    requires r.pos < |src.recs| && 0.0 <= src.recs[r.pos].start && 0 <= Shift(r)
    ensures MakeEvent(src.recs[r.pos], Shift(r)).time == Take(src, r).last == Shift(r) + Time(src, r.pos)
  {
    TruncateAddsUp(src.recs[r.pos].start * 1000.0, Shift(r));
  }

  lemma ShiftIsStartOfPass(src: Source, r: State)
    requires Startable(src) && (0 < r.looped ==> r.duration == Duration(src))
    ensures 0 <= Duration(src) && 0 <= Shift(r) == r.looped * Duration(src)
  {
    TimesNonnegative(src);
    hide Duration, Time;
    var d := Duration(src);
    assert 0 <= r.looped * d;
  }

  /** The next record of a call is its next nominal event, if it passes. */
  lemma TakeInCall(src: Source, k: nat, r: State)
    requires Startable(src) && InCall(src, k, r) && |r.events| < src.quota && r.pos < |src.recs|
    ensures InCall(src, k, Take(src, r))
    ensures Take(src, r).last == r.looped * Duration(src) + Time(src, r.pos)
  {
    hide Duration, Time, MakeEvent, Passing, Nth, Passes;
    ShiftIsStartOfPass(src, r);
    SameTruncation(src, r);
    TakeFacts(src, r);
    var p, i := PerPass(src), |r.events|;
    if Passes(src, src.recs[r.pos]) {
      NthIs(src, r.pos);
      Divide(i, p, r.looped - k, Passing(src, r.pos));
      assert k + i / p == r.looped;
      assert Nominal(src, k, i) == MakeEvent(src.recs[r.pos], Shift(r));
    }
  }

  /** Starting the file over, in the middle of a call: loopDuration is what the first pass lasted. */
  lemma WrapInCall(src: Source, k: nat, r: State)
    requires Startable(src) && InCall(src, k, r) && |r.events| < src.quota && r.pos == |src.recs|
    ensures InCall(src, k, Wrap(r)) && Wrap(r).last == r.last
  {
    hide Time, Passes, Listed;
    var p := PerPass(src);
    assert 0 < |src.recs|;
    assert (r.looped + 1 - k) * p == (r.looped - k) * p + p;
    if r.looped == 0 {
      assert (r.looped - k) * p == 0 && r.looped * Duration(src) == 0;
    }
  }

  /** A call, from the inside: exactly what is needed is loaded, and the last record taken is the last event. */
  lemma {:induction false} PullInCall(src: Source, k: nat, need: nat, r: State)
    requires Startable(src) && InCall(src, k, r) && |r.events| + need == src.quota
    ensures var r' := Pull(src, need, r);
            && InCall(src, k, r') && |r'.events| == src.quota && r.events <= r'.events
            && (0 < need ==> 0 < r'.pos && Passes(src, src.recs[r'.pos - 1]))
    decreases need, Laps(src, r.pos), |src.recs| - r.pos
  {
    hide InCall, Startable, Passes;
    InCallHasRoom(src, k, r);
    if need == 0 {
    } else if r.pos == |src.recs| {
      WrapInCall(src, k, r);
      PullInCall(src, k, need, Wrap(r));
    } else {
      TakeInCall(src, k, r);
      TakeFacts(src, r);
      PullInCall(src, k, if Passes(src, src.recs[r.pos]) then need - 1 else need, Take(src, r));
    }
  }

  lemma InCallHasRoom(src: Source, k: nat, r: State)
    requires Startable(src) && InCall(src, k, r)
    ensures r.pos <= |src.recs| && 0 < Passing(src, |src.recs|)
  {
  }

  /** Between calls, after `n` of them: the passes are counted, and the watermark is the time of the final record. */
  ghost predicate AtRest(src: Source, n: nat, r: State)
    requires Startable(src)
  {
    if n == 0 then r == FRESH
    else
      && r.pos == |src.recs| && r.looped + 1 == n * Rounds(src)
      && (0 < r.looped ==> r.duration == Duration(src))
      && r.last == r.looped * Duration(src) + Time(src, Final(src))
      && |r.events| == src.quota && Listed(src, (n - 1) * Rounds(src), r.events)
  }

  /** The state in which the call after `n` others takes its first record. */
  function First(src: Source, n: nat): State
    requires 0 < PerPass(src)
  {
    if n == 0 then FRESH else Wrap(After(src, n).(events := []))
  }

  lemma FirstInCall(src: Source, n: nat)
    requires Startable(src) && AtRest(src, n, After(src, n))
    ensures InCall(src, n * Rounds(src), First(src, n)) && First(src, n).events == []
    ensures First(src, n).last == After(src, n).last && First(src, n).pos == 0
    ensures Pull(src, src.quota, First(src, n)) == Pull(src, src.quota, After(src, n).(events := []))
  {
    hide Time, Passes, After, Pull;
    var r := After(src, n).(events := []);
    if n > 0 {
      PullWraps(src, src.quota, r);
      if r.looped == 0 {
        assert n * Rounds(src) == 1;
        OneRound(src, n);
        assert r.looped * Duration(src) == 0;
      }
      var k := n * Rounds(src);
      assert (k - k) * PerPass(src) == 0;
    }
  }

  lemma OneRound(src: Source, n: nat)
    requires 0 < PerPass(src) && 0 < src.quota && n * Rounds(src) == 1
    ensures src.quota <= PerPass(src)
  {
    if n > 0 {
      Monotone(1, n, Rounds(src));
    }
    assert src.quota - 1 == (src.quota - 1) / PerPass(src) * PerPass(src) + (src.quota - 1) % PerPass(src);
  }

  lemma EndsAtRest(src: Source, n: nat, r: State)
    requires Startable(src) && InCall(src, n * Rounds(src), r) && |r.events| == src.quota
    requires 0 < r.pos && Passes(src, src.recs[r.pos - 1])
    ensures AtRest(src, n + 1, r.(pos := |src.recs|))
  {
    hide Time, Passes, Passing, Nth;
    var k, p := n * Rounds(src), PerPass(src);
    PassedOne(src, r.pos - 1);
    NthIs(src, r.pos - 1);
    Divide(src.quota - 1, p, r.looped - k, Passing(src, r.pos - 1));
    assert (n + 1) * Rounds(src) == k + Rounds(src);
  }

  /**
   The replay in closed form, whatever the order of the file: call n+1 covers the passes n*Rounds to (n+1)*Rounds - 1,
   its events are the records that pass, over and over, each shifted by as many durations as its pass has before it,
   and the watermark it leaves is the time of its last event.
   */
  lemma {:induction false} ReplayInClosedForm(src: Source, n: nat)
    requires Startable(src)
    ensures AtRest(src, n, After(src, n))
  {
    hide AtRest, InCall, Startable, Pull;
    if n == 0 {
      FreshAtRest(src);
    } else {
      ReplayInClosedForm(src, n - 1);
      FirstInCall(src, n - 1);
      NeedsEvents(src);
      PullInCall(src, (n - 1) * Rounds(src), src.quota, First(src, n - 1));
      EndsAtRest(src, n - 1, Pull(src, src.quota, First(src, n - 1)));
    }
  }

  lemma FreshAtRest(src: Source)
    requires Startable(src)
    ensures AtRest(src, 0, FRESH)
  {
  }

  lemma NeedsEvents(src: Source)
    requires Startable(src)
    ensures 0 < src.quota && 0 < PerPass(src)
  {
  }

  // ---- the watermark ----

  lemma NominalTime(src: Source, k: nat, i: nat)
    requires Startable(src)
    ensures var p := PerPass(src);
            Nominal(src, k, i).time == (k + i / p) * Duration(src) + Time(src, Nth(src, i % p))
    ensures k * Duration(src) + Time(src, Nth(src, i % PerPass(src))) <= Nominal(src, k, i).time
    ensures 0 <= Nominal(src, k, i).time
  {
    TimesNonnegative(src);
    hide Duration, Time;
    var d, q := Duration(src), i / PerPass(src);
    assert (k + q) * d == k * d + q * d && 0 <= q * d && 0 <= k * d;
  }

  lemma WatermarkIs(src: Source, n: nat)
    requires Startable(src)
    ensures 0 < n ==> 0 < n * Rounds(src)
    ensures After(src, n).last
         == if n == 0 then 0 else (n * Rounds(src) - 1) * Duration(src) + Time(src, Final(src))
    ensures 0 <= After(src, n).last
  {
    hide Duration, Time, Final, Rounds, After;
    ReplayInClosedForm(src, n);
    TimesNonnegative(src);
    if n > 0 {
      assert 0 <= (n * Rounds(src) - 1) * Duration(src);
    } else {
      assert After(src, 0) == FRESH by { AfterNone(src); }
    }
  }

  lemma AfterNone(src: Source)
    requires 0 < PerPass(src)
    ensures After(src, 0) == FRESH
  {
  }

  /** lastEventTime never decreases from call to call, whatever the order of the file. */
  lemma WatermarkNeverDecreases(src: Source, m: nat, n: nat)
    requires Startable(src) && m <= n
    ensures After(src, m).last <= After(src, n).last
  {
    hide Duration, Time, Final, Rounds, After;
    TimesNonnegative(src);
    WatermarkIs(src, m);
    WatermarkIs(src, n);
    if 0 < m {
      Monotone(m, n, Rounds(src));
      Monotone(m * Rounds(src) - 1, n * Rounds(src) - 1, Duration(src));
    }
  }

  lemma EventIs(src: Source, n: nat, i: nat)
    requires Startable(src) && i < src.quota
    ensures |After(src, n + 1).events| == src.quota
    ensures After(src, n + 1).events[i] == Nominal(src, n * Rounds(src), i)
  {
    hide Nominal, Rounds, Duration, Time, Final, After, Startable;
    ReplayInClosedForm(src, n + 1);
  }

  /** Every event loaded, in or out of order, is a time after the start. */
  lemma EventsNonnegative(src: Source, n: nat)
    requires Startable(src)
    ensures forall e | e in After(src, n + 1).events :: 0 <= e.time
  {
    hide Nominal, Rounds, After, Startable;
    NeedsEvents(src);
    ReplayInClosedForm(src, n + 1);
    forall e | e in After(src, n + 1).events ensures 0 <= e.time {
      var i :| 0 <= i < |After(src, n + 1).events| && After(src, n + 1).events[i] == e;
      EventIs(src, n, i);
      NominalTime(src, n * Rounds(src), i);
    }
  }

  /** The last event of a call is at the watermark the call leaves. */
  lemma LastEventAtWatermark(src: Source, n: nat)
    requires Startable(src)
    ensures |After(src, n + 1).events| == src.quota
    ensures After(src, n + 1).events[src.quota - 1].time == After(src, n + 1).last
  {
    hide Duration, Time, After;
    EventIs(src, n, src.quota - 1);
    NominalTime(src, n * Rounds(src), src.quota - 1);
    WatermarkIs(src, n + 1);
    assert (n + 1) * Rounds(src) - 1 == n * Rounds(src) + (src.quota - 1) / PerPass(src);
  }

  // ---- exactly when the order is kept ----

  lemma Ahead(src: Source, n: nat, i: nat)
    requires Startable(src) && KeepsUp(src) && i < src.quota
    ensures |After(src, n + 1).events| == src.quota
    ensures After(src, n).last <= After(src, n + 1).events[i].time
  {
    hide After, Rounds, Startable, KeepsUp, Duration, Time, Nominal;
    NeedsEvents(src);
    EventIs(src, n, i);
    WatermarkIs(src, n);
    NominalTime(src, n * Rounds(src), i);
    WithinDuration(src, i);
    if n > 0 {
      var d, k := Duration(src), n * Rounds(src);
      assert (k - 1) * d + d == k * d;
    }
  }

  lemma WithinDuration(src: Source, i: nat)
    requires Startable(src) && KeepsUp(src) && i < src.quota
    ensures Time(src, Final(src)) <= Duration(src) + Time(src, Nth(src, i % PerPass(src)))
  {
    TimesNonnegative(src);
  }

  /** The second call and every later one load record `i` that early. */
  lemma Behind(src: Source, i: nat)
    requires Startable(src) && PerPass(src) < src.quota && i < |src.recs| && Passes(src, src.recs[i])
    requires Time(src, |src.recs| - 1) + Time(src, i) < Time(src, Final(src))
    ensures exists e :: e in After(src, 2).events && e.time < After(src, 1).last
  {
    hide After, Rounds, Passing, Passes;
    NthIs(src, i);
    var j, d, k := Passing(src, i), Duration(src), 1 * Rounds(src);
    Divide(j, PerPass(src), 0, j);
    EventIs(src, 1, j);
    NominalTime(src, k, j);
    WatermarkIs(src, 1);
    assert (k - 1) * d + d == k * d;
    assert After(src, 2).events[j] in After(src, 2).events;
  }

  /**
   No call ever loads an event earlier than the watermark it began with if and only if the file keeps up, which can be
   told from the file, the filters and the quota.
   */
  lemma OrderKeptIff(src: Source)
    requires Startable(src)
    ensures KeepsUp(src) <==> forall n: nat, e | e in After(src, n + 1).events :: After(src, n).last <= e.time
  {
    hide After, Time, Duration;
    if KeepsUp(src) {
      forall n: nat, e | e in After(src, n + 1).events ensures After(src, n).last <= e.time {
        EventIs(src, n, 0);
        var i :| 0 <= i < |After(src, n + 1).events| && After(src, n + 1).events[i] == e;
        Ahead(src, n, i);
      }
    } else {
      var i :| 0 <= i < |src.recs| && Passes(src, src.recs[i])
               && Time(src, |src.recs| - 1) + Time(src, i) < Time(src, Final(src));
      Behind(src, i);
      assert 2 == 1 + 1;
    }
  }

  const UNORDERED := Source(
    [EventRecord(1, 1, "SEND", 0, 0.0, 3.0), EventRecord(1, 2, "SEND", 0, 0.0, 1.0)], {1}, {"SEND"}, 11)

  /**
   The source only remarks that the order of the file should be checked. It has to be: a file with times 3 s and 1 s, of
   which each call takes eleven events, falls behind.
   */
  lemma UnorderedFileFallsBehind()
    ensures Startable(UNORDERED) && !KeepsUp(UNORDERED)
  {
    var src := UNORDERED;
    assert Passing(src, 1) == 1 && Passing(src, 2) == 2;
    NthIs(src, 0);
    assert Final(src) == 0;
    assert Time(src, 0) == 3000 && Time(src, 1) == 1000;
    assert Passes(src, src.recs[1]);
  }

  // ---- files in time order ----

  lemma TimesInOrder(src: Source, i: nat, j: nat)
    requires TimeOrdered(src) && i <= j < |src.recs| && 0.0 <= src.recs[i].start
    ensures Time(src, i) <= Time(src, j)
  {
    assert src.recs[i].start <= src.recs[j].start;
  }

  /** A file in time order keeps up, and what it loads in one pass comes within one duration. */
  lemma OrderedKeepsUp(src: Source)
    requires Startable(src) && TimeOrdered(src)
    ensures KeepsUp(src)
    ensures forall i | 0 <= i < |src.recs| && (src.quota <= PerPass(src) ==> i <= Final(src)) ::
              Time(src, i) <= Duration(src)
  {
    TimesNonnegative(src);
    hide Truncate, Final, PerPass, Passes;
    forall i | 0 <= i < |src.recs| && (src.quota <= PerPass(src) ==> i <= Final(src))
      ensures Time(src, i) <= Duration(src)
    {
      TimesInOrder(src, i, if src.quota <= PerPass(src) then Final(src) else |src.recs| - 1);
    }
    TimesInOrder(src, Final(src), |src.recs| - 1);
  }

  /** The pass in which event `i` of call n+1 is loaded. */
  function PassOf(src: Source, n: nat, i: nat): nat
    requires 0 < PerPass(src) && 0 < src.quota
  {
    n * Rounds(src) + i / PerPass(src)
  }

  /** The time lies in pass `k`: [k*D, (k+1)*D]. */
  ghost predicate InPass(src: Source, time: int, k: nat)
    requires 0 < PerPass(src) && 0 < src.quota
  {
    k * Duration(src) <= time <= (k + 1) * Duration(src)
  }

  lemma EventInPass(src: Source, n: nat, i: nat)
    requires Startable(src) && TimeOrdered(src) && i < src.quota
    ensures |After(src, n + 1).events| == src.quota
    ensures InPass(src, After(src, n + 1).events[i].time, PassOf(src, n, i))
  {
    hide After, Time, Duration, Rounds, Nth;
    EventIs(src, n, i);
    NominalTime(src, n * Rounds(src), i);
    OneDurationLong(src, i);
    var d, k := Duration(src), PassOf(src, n, i);
    assert (k + 1) * d == k * d + d;
  }

  lemma OneDurationLong(src: Source, i: nat)
    requires Startable(src) && TimeOrdered(src) && i < src.quota
    ensures 0 <= Time(src, Nth(src, i % PerPass(src))) <= Duration(src)
  {
    OrderedKeepsUp(src);
    TimesNonnegative(src);
    hide Time, Duration, Nth, Passing;
    var p := PerPass(src);
    if src.quota <= p {
      Divide(i, p, 0, i);
      Divide(src.quota - 1, p, 0, src.quota - 1);
      NthGrows(src, i, src.quota - 1);
    }
  }

  lemma EventsInOrder(src: Source, n: nat, i: nat, j: nat)
    requires Startable(src) && TimeOrdered(src) && i <= j < src.quota
    ensures |After(src, n + 1).events| == src.quota
    ensures After(src, n + 1).events[i].time <= After(src, n + 1).events[j].time
  {
    hide After, Rounds, Duration, Time;
    var p := PerPass(src);
    QuotientGrows(i, j, p);
    if i / p == j / p {
      NthGrows(src, i % p, j % p);
      TimesInOrder(src, Nth(src, i % p), Nth(src, j % p));
      EventIs(src, n, i);
      EventIs(src, n, j);
      NominalTime(src, n * Rounds(src), i);
      NominalTime(src, n * Rounds(src), j);
    } else {
      TimesNonnegative(src);
      EventInPass(src, n, i);
      EventInPass(src, n, j);
      Monotone(PassOf(src, n, i) + 1, PassOf(src, n, j), Duration(src));
    }
  }

  /**
   The replay of a file in time order: the events of a call are in order, each lies inside the pass that loads it,
   none is earlier than the watermark the call began with and none later than the one it leaves.
   */
  lemma OrderedReplay(src: Source, n: nat)
    requires Startable(src) && TimeOrdered(src)
    ensures var r, r' := After(src, n), After(src, n + 1);
            && |r'.events| == src.quota && Sorted(r'.events)
            && forall i | 0 <= i < src.quota ::
                 r.last <= r'.events[i].time <= r'.last && InPass(src, r'.events[i].time, PassOf(src, n, i))
  {
    hide After, PassOf, InPass;
    var events := After(src, n + 1).events;
    OrderedKeepsUp(src);
    EventIs(src, n, 0);
    LastEventAtWatermark(src, n);
    forall i, j | 0 <= i < j < |events| ensures events[i].time <= events[j].time {
      EventsInOrder(src, n, i, j);
    }
    forall i | 0 <= i < src.quota
      ensures After(src, n).last <= events[i].time <= After(src, n + 1).last
      ensures InPass(src, events[i].time, PassOf(src, n, i))
    {
      Ahead(src, n, i);
      EventInPass(src, n, i);
      EventsInOrder(src, n, i, src.quota - 1);
    }
  }

  /** Inside a call, lastEventTime does not decrease, and each record processed lies in its pass. */
  lemma TakeInOrder(src: Source, k: nat, r: State)
    requires Startable(src) && TimeOrdered(src) && InCall(src, k, r) && |r.events| < src.quota && r.pos < |src.recs|
    requires r.pos == 0 ==> r.last <= r.looped * Duration(src)
    ensures InCall(src, k, Take(src, r)) && 0 < Take(src, r).pos
    ensures r.last <= Take(src, r).last && InPass(src, Take(src, r).last, r.looped)
  {
    TakeInCall(src, k, r);
    OrderedKeepsUp(src);
    TimesNonnegative(src);
    if 0 < r.pos {
      TimesInOrder(src, r.pos - 1, r.pos);
    }
    if src.quota <= PerPass(src) {
      BeforeFinal(src, k, r);
    }
    hide Duration, Time;
    assert (r.looped + 1) * Duration(src) == r.looped * Duration(src) + Duration(src);
  }

  lemma BeforeFinal(src: Source, k: nat, r: State)
    requires Startable(src) && InCall(src, k, r) && |r.events| < src.quota <= PerPass(src) && r.pos < |src.recs|
    ensures r.pos <= Final(src)
  {
    hide Duration, Time, Passes, Passing, Listed;
    var p := PerPass(src);
    Divide(src.quota - 1, p, 0, src.quota - 1);
    PassedOne(src, Final(src));
    Monotone(0, r.looped - k, p);
    if Final(src) < r.pos {
      PassingGrows(src, Final(src) + 1, r.pos);
    }
  }

  /** The first steps of a call: until it has all its events, lastEventTime never decreases from step to step. */
  lemma {:induction false} StepsInOrder(src: Source, n: nat, m: nat)
    requires Startable(src) && TimeOrdered(src) && |Steps(src, m, First(src, n)).events| < src.quota
    ensures var r := Steps(src, m, First(src, n));
            && InCall(src, n * Rounds(src), r) && (r.pos == 0 ==> r.last <= r.looped * Duration(src))
            && r.last <= Step(src, r).last
            && (r.pos < |src.recs| ==> InPass(src, Step(src, r).last, r.looped))
  {
    hide InCall, InPass, Duration, TimeOrdered, After;
    var k := n * Rounds(src);
    ReplayInClosedForm(src, n);
    FirstInCall(src, n);
    if m == 0 {
      FirstNotAhead(src, n);
    } else {
      var r := Steps(src, m - 1, First(src, n));
      StepGrows(src, r);
      StepsInOrder(src, n, m - 1);
      if r.pos == |src.recs| {
        WrapInCall(src, k, r);
        WrapNotAhead(src, k, r);
      } else {
        TakeInOrder(src, k, r);
      }
    }
    var r := Steps(src, m, First(src, n));
    if r.pos < |src.recs| {
      TakeInOrder(src, k, r);
    }
  }

  lemma StepGrows(src: Source, r: State)
    requires r.pos <= |src.recs|
    ensures |r.events| <= |Step(src, r).events|
  {
  }

  lemma WrapNotAhead(src: Source, k: nat, r: State)
    requires Startable(src) && TimeOrdered(src) && InCall(src, k, r)
    requires |r.events| < src.quota && r.pos == |src.recs|
    ensures Wrap(r).last <= Wrap(r).looped * Duration(src)
  {
    WrapInCall(src, k, r);
    OrderedKeepsUp(src);
    MoreThanOnePass(src, k, r);
    hide Time;
    assert (r.looped + 1) * Duration(src) == r.looped * Duration(src) + Duration(src);
  }

  lemma MoreThanOnePass(src: Source, k: nat, r: State)
    requires Startable(src) && InCall(src, k, r) && |r.events| < src.quota && r.pos == |src.recs|
    ensures PerPass(src) < src.quota
  {
    Monotone(0, r.looped - k, PerPass(src));
  }

  lemma FirstNotAhead(src: Source, n: nat)
    requires Startable(src) && TimeOrdered(src)
    ensures First(src, n).last <= First(src, n).looped * Duration(src)
  {
    hide After, Time, InCall, Listed, Passes, Rounds, Duration;
    ReplayInClosedForm(src, n);
    FirstInCall(src, n);
    OrderedKeepsUp(src);
    if n > 0 {
      var k := n * Rounds(src);
      assert (k - 1) * Duration(src) + Duration(src) == k * Duration(src);
    }
  }
}
