/**
 The file worker's thread as a sequence of turns: a drain of the heap up to the watermark, and then a call of loadEvents
 when it was woken. Whether all it ever releases is in time order is decided by the events file alone.
 */
module Turns {
  import opened Events
  import M = Merge
  import D = Reads

  /** The worker between two turns: `calls` of loadEvents were made, `added` is fileEventsAddedCount. */
  datatype Worker = Worker(file: D.File, calls: nat, merge: M.Merge, added: nat)

  /** What a turn releases, and whether it ends with a call of loadEvents. */
  datatype Turn = Turn(released: seq<Event>, wake: bool)

  /** Right after startup: the heap holds the start events and what the first call loaded. */
  ghost function Begin(file: D.File, seeds: multiset<Event>): Worker
    requires D.Returns(file)
  {
    var r := D.After(file, 1);
    var all := seeds + multiset(r.events);
    Worker(file, 1, M.Merge(all, [], r.last, all), 0)
  }

  ghost function Load(w: Worker): (w': Worker)
    requires D.Returns(w.file)
    ensures w'.file == w.file && w'.calls == w.calls + 1
  {
    var r := D.After(w.file, w.calls + 1);
    w.(calls := w.calls + 1, merge := M.Refill(w.merge, r.events, r.last))
  }

  ghost function AfterDrain(w: Worker, es: seq<Event>): Worker {
    w.(merge := M.ReleaseAll(w.merge, es), added := M.CountAfter(w.file.quota, w.added, |es|))
  }

  ghost predicate Possible(w: Worker, t: Turn) {
    M.Drains(w.file.quota, w.merge, w.added, t.released)
  }

  ghost function Do(w: Worker, t: Turn): (w': Worker)
    requires D.Returns(w.file)
    ensures w'.file == w.file
  {
    if t.wake then Load(AfterDrain(w, t.released)) else AfterDrain(w, t.released)
  }

  ghost predicate Run(w: Worker, turns: seq<Turn>)
    requires D.Returns(w.file)
  {
    turns == [] || (Run(w, turns[..|turns| - 1]) && Possible(End(w, turns[..|turns| - 1]), turns[|turns| - 1]))
  }

  ghost function End(w: Worker, turns: seq<Turn>): (w': Worker)
    requires D.Returns(w.file)
    ensures w'.file == w.file
  {
    if turns == [] then w else Do(End(w, turns[..|turns| - 1]), turns[|turns| - 1])
  }

  /** How many of the turns end with a call of loadEvents. */
  function Loads(turns: seq<Turn>): nat {
    if turns == [] then 0 else Loads(turns[..|turns| - 1]) + (if turns[|turns| - 1].wake then 1 else 0)
  }

  lemma NoTurns(w: Worker)
    requires D.Returns(w.file)
    ensures Run(w, []) && End(w, []) == w && Loads([]) == 0
  {
  }

  lemma OneTurnMore(w: Worker, turns: seq<Turn>, t: Turn)
    requires D.Returns(w.file)
    ensures Run(w, turns + [t]) <==> Run(w, turns) && Possible(End(w, turns), t)
    ensures End(w, turns + [t]) == Do(End(w, turns), t)
    ensures Loads(turns + [t]) == Loads(turns) + (if t.wake then 1 else 0)
  {
    hide Possible, Do;
    assert (turns + [t])[..|turns|] == turns;
  }

  lemma {:induction false} RunsJoin(w: Worker, a: seq<Turn>, b: seq<Turn>)
    requires D.Returns(w.file) && Run(w, a) && Run(End(w, a), b)
    ensures Run(w, a + b) && End(w, a + b) == End(End(w, a), b)
    decreases |b|
  {
    hide Possible, Do;
    if b == [] {
      assert a + b == a;
    } else {
      var front, last := b[..|b| - 1], b[|b| - 1];
      RunsJoin(w, a, front);
      assert a + b == (a + front) + [last];
      OneTurnMore(w, a + front, last);
    }
  }

  // ---- conservation ----

  /** What was released and what waits are together the start events and all that `calls` of loadEvents loaded. */
  ghost predicate Accounts(w: Worker, seeds: multiset<Event>)
    requires D.Returns(w.file)
  {
    && w.merge.loaded == seeds + D.LoadedBy(w.file, w.calls) && M.Conserved(w.merge)
    && w.merge.watermark == D.After(w.file, w.calls).last
    && w.added <= w.file.quota
  }

  lemma BeginAccounts(file: D.File, seeds: multiset<Event>)
    requires D.Returns(file)
    ensures Accounts(Begin(file, seeds), seeds)
  {
    hide D.After;
    D.LoadedOneMore(file, 0);
  }

  lemma LoadAccounts(w: Worker, seeds: multiset<Event>)
    requires D.Returns(w.file) && Accounts(w, seeds)
    ensures Accounts(Load(w), seeds)
  {
    hide D.After;
    D.LoadedOneMore(w.file, w.calls);
  }

  lemma DrainAccounts(w: Worker, seeds: multiset<Event>, es: seq<Event>)
    requires D.Returns(w.file) && Accounts(w, seeds) && M.AllDue(w.merge, es)
    ensures Accounts(AfterDrain(w, es), seeds)
  {
    hide D.After, D.LoadedBy, M.Conserved;
    M.ReleaseAllIs(w.merge, es);
    M.AllDueConserves(w.merge, es);
  }

  lemma DoAccounts(w: Worker, seeds: multiset<Event>, t: Turn)
    requires D.Returns(w.file) && Accounts(w, seeds) && Possible(w, t)
    ensures Accounts(Do(w, t), seeds) && Do(w, t).calls == w.calls + (if t.wake then 1 else 0)
  {
    hide Accounts, Load;
    DrainAccounts(w, seeds, t.released);
    if t.wake {
      LoadAccounts(AfterDrain(w, t.released), seeds);
    }
  }

  lemma {:induction false} RunAccounts(w: Worker, seeds: multiset<Event>, turns: seq<Turn>)
    requires D.Returns(w.file) && Accounts(w, seeds) && Run(w, turns)
    ensures Accounts(End(w, turns), seeds) && End(w, turns).calls == w.calls + Loads(turns)
  {
    hide Accounts, Possible, Do;
    if turns != [] {
      RunAccounts(w, seeds, turns[..|turns| - 1]);
      DoAccounts(End(w, turns[..|turns| - 1]), seeds, turns[|turns| - 1]);
    }
  }

  /** With start events after the start, nothing that waits is before the start. */
  lemma WaitingNonnegative(w: Worker, seeds: multiset<Event>)
    requires D.Timed(w.file) && Accounts(w, seeds) && forall e | e in seeds :: 0 <= e.time
    ensures forall e | e in w.merge.heap :: 0 <= e.time
  {
    hide D.After, D.LoadedBy, D.Timed;
    D.LoadedNonnegative(w.file, w.calls);
    assert forall e | e in w.merge.heap :: e in w.merge.loaded;
  }

  // ---- order ----

  lemma LoadInOrder(w: Worker)
    requires D.Timed(w.file) && D.KeepsUp(w.file) && M.InOrder(w.merge)
    requires w.merge.watermark == D.After(w.file, w.calls).last
    ensures M.InOrder(Load(w).merge)
  {
    hide D.After, D.Timed, D.KeepsUp, M.InOrder;
    D.TimedReturns(w.file);
    var r := D.After(w.file, w.calls + 1);
    D.LoadsAhead(w.file, w.calls);
    D.WatermarkNeverDecreases(w.file, w.calls, w.calls + 1);
    M.RefillKeepsOrder(w.merge, r.events, r.last);
  }

  /** All a worker releases over any number of turns is in time order, when the events file keeps up. */
  lemma {:induction false} RunInOrder(w: Worker, seeds: multiset<Event>, turns: seq<Turn>)
    requires D.Timed(w.file) && D.KeepsUp(w.file)
    requires M.InOrder(w.merge) && Accounts(w, seeds) && Run(w, turns)
    ensures M.InOrder(End(w, turns).merge)
  {
    hide M.InOrder, D.Timed, D.KeepsUp, Accounts;
    D.TimedReturns(w.file);
    if turns != [] {
      var front, t := turns[..|turns| - 1], turns[|turns| - 1];
      RunInOrder(w, seeds, front);
      RunAccounts(w, seeds, front);
      DoInOrder(End(w, front), seeds, t);
    }
  }

  lemma DoInOrder(w: Worker, seeds: multiset<Event>, t: Turn)
    requires D.Timed(w.file) && D.KeepsUp(w.file)
    requires M.InOrder(w.merge) && Accounts(w, seeds) && Possible(w, t)
    ensures M.InOrder(Do(w, t).merge)
  {
    hide M.InOrder, D.KeepsUp, D.After, D.LoadedBy;
    M.AllDueKeepsOrder(w.merge, t.released);
    DrainAccounts(w, seeds, t.released);
    if t.wake {
      LoadInOrder(AfterDrain(w, t.released));
    }
  }

  lemma BeginInOrder(file: D.File, seeds: multiset<Event>)
    requires D.Returns(file)
    ensures M.InOrder(Begin(file, seeds).merge)
  {
  }

  // ---- and otherwise not ----

  /** Every turn ends with a call of loadEvents: in between, the thread waits for as long as it takes to be woken. */
  ghost predicate Woken(turns: seq<Turn>) { forall i | 0 <= i < |turns| :: turns[i].wake }

  /**
   A worker that is woken after every drain has drained all that is due after some turn: a drain that starts to count
   at zero and is stopped has released one event more than are loaded then.
   */
  lemma {:induction false} DrainsInTheEnd(w: Worker, seeds: multiset<Event>) returns (turns: seq<Turn>, es: seq<Event>)
    requires D.Returns(w.file) && Accounts(w, seeds)
    ensures Woken(turns) && Run(w, turns) && Accounts(End(w, turns), seeds)
    ensures Possible(End(w, turns), Turn(es, true)) && M.Drained(AfterDrain(End(w, turns), es).merge)
    decreases if w.added == 0 then 0 else 1, |w.merge.heap|
  {
    hide D.After, D.LoadedBy, D.Returns, M.Drained, M.AllDue, M.ReleaseAll, Run, End, Accounts;
    AccountsMeans(w, seeds);
    NothingReleased(w.merge);
    es := M.DrainOn(w.file.quota, w.merge, w.added, []);
    var t := Turn(es, true);
    NoTurns(w);
    if w.added + |es| <= w.file.quota {
      turns := [];
    } else {
      M.AllDueConserves(w.merge, es);
      DoAccounts(w, seeds, t);
      LoadSize(AfterDrain(w, es));
      OneTurnMore(w, [], t);
      assert [] + [t] == [t];
      var rest, last := DrainsInTheEnd(Do(w, t), seeds);
      RunsJoin(w, [t], rest);
      turns, es := [t] + rest, last;
    }
  }

  lemma AccountsMeans(w: Worker, seeds: multiset<Event>)
    requires D.Returns(w.file) && Accounts(w, seeds)
    ensures M.Conserved(w.merge) && w.added <= w.file.quota
    ensures w.merge.watermark == D.After(w.file, w.calls).last
  {
  }

  lemma LoadSize(w: Worker)
    requires D.Returns(w.file)
    ensures |Load(w).merge.heap| == |w.merge.heap| + w.file.quota && Load(w).added == w.added
    ensures Load(w).merge.out == w.merge.out && w.merge.loaded <= Load(w).merge.loaded
    ensures forall e | e in D.After(w.file, w.calls + 1).events :: e in Load(w).merge.heap
  {
    hide D.After;
    D.CallLoadsQuota(w.file, w.calls);
  }

  lemma NothingReleased(m: M.Merge)
    ensures M.AllDue(m, [])
  {
  }

  lemma {:induction false} EndKeeps(w: Worker, turns: seq<Turn>)
    requires D.Returns(w.file)
    ensures w.merge.out <= End(w, turns).merge.out && w.merge.loaded <= End(w, turns).merge.loaded
    ensures w.calls <= End(w, turns).calls
  {
    hide D.After, Load;
    if turns != [] {
      var before := End(w, turns[..|turns| - 1]);
      EndKeeps(w, turns[..|turns| - 1]);
      M.ReleaseAllIs(before.merge, turns[|turns| - 1].released);
      LoadSize(AfterDrain(before, turns[|turns| - 1].released));
    }
  }

  lemma Moved(heap: multiset<Event>, a: seq<Event>, heap': multiset<Event>, b: seq<Event>, e: Event)
    requires heap + multiset(a) <= heap' + multiset(a + b) && e in heap && e !in heap'
    ensures e in b
  {
    assert (heap + multiset(a))[e] <= (heap' + multiset(a + b))[e];
    assert multiset(a + b)[e] == multiset(a)[e] + multiset(b)[e];
  }

  /** What waited and no longer does was released since, at the end of the output. */
  lemma ReleasedSince(m: M.Merge, m': M.Merge, e: Event)
    requires M.Conserved(m) && M.Conserved(m') && m.loaded <= m'.loaded
    requires m.out <= m'.out && e in m.heap && e !in m'.heap
    ensures e in m'.out[|m.out|..]
  {
    var b := m'.out[|m.out|..];
    assert m'.out == m.out + b;
    Moved(m.heap, m.out, m'.heap, b, e);
  }

  /** After a drain that was not stopped, everything loaded up to the watermark is out, and only later events wait. */
  lemma DrainedIsOut(w: Worker, seeds: multiset<Event>, es: seq<Event>)
    requires D.Timed(w.file) && Accounts(w, seeds) && forall x | x in seeds :: 0 <= x.time
    requires Possible(w, Turn(es, true)) && M.Drained(AfterDrain(w, es).merge)
    ensures var m := AfterDrain(w, es).merge;
            && M.Conserved(m) && m.loaded == w.merge.loaded && m.watermark == w.merge.watermark && w.merge.out <= m.out
            && (forall x | x in m.heap :: m.watermark < x.time)
            && (forall x | x in m.loaded && x.time <= m.watermark :: x in m.out)
  {
    hide D.After, D.LoadedBy, D.Timed, M.Drained, M.AllDue, M.ReleaseAll;
    D.TimedReturns(w.file);
    var d := AfterDrain(w, es);
    DrainAccounts(w, seeds, es);
    M.ReleaseAllIs(w.merge, es);
    WaitingNonnegative(d, seeds);
    M.DrainedLeavesOnlyLater(d.merge);
    forall x | x in d.merge.loaded && x.time <= d.merge.watermark ensures x in d.merge.out {
      assert x in d.merge.heap || x in multiset(d.merge.out);
    }
  }

  lemma LoadedIn(w: Worker, seeds: multiset<Event>, e: Event)
    requires D.Returns(w.file) && Accounts(w, seeds) && 0 < w.calls && e in D.After(w.file, w.calls).events
    ensures e in w.merge.loaded
  {
    hide D.After;
    D.LoadedOneMore(w.file, w.calls - 1);
  }

  /**
   A worker that loaded something and whose file does not keep up goes on, woken after every turn, to a turn that
   loads an event which is earlier than one that is out.
   */
  lemma LoadsLate(w: Worker, seeds: multiset<Event>) returns (turns: seq<Turn>, top: Event, late: Event)
    requires D.Timed(w.file) && Accounts(w, seeds) && forall x | x in seeds :: 0 <= x.time
    requires !D.KeepsUp(w.file) && 0 < w.calls
    ensures Woken(turns) && Run(w, turns) && Accounts(End(w, turns), seeds)
    ensures top in End(w, turns).merge.out && late in End(w, turns).merge.heap
    ensures late.time < top.time <= End(w, turns).merge.watermark
  {
    hide D.After, D.LoadedBy, D.Timed, D.KeepsUp, D.Returns, M.Drained, M.AllDue, M.ReleaseAll, Run, End,
         Accounts, Load, AfterDrain;
    D.TimedReturns(w.file);
    var a, es := DrainsInTheEnd(w, seeds);
    var d, t := End(w, a), Turn(es, true);
    EndKeeps(w, a);
    top, late := D.FallsBehind(w.file, d.calls - 1);
    DrainedIsOut(d, seeds, es);
    LoadedIn(d, seeds, top);
    AccountsMeans(d, seeds);
    OneTurnMore(w, a, t);
    DoAccounts(d, seeds, t);
    DoLoads(d, es);
    AccountsMeans(Do(d, t), seeds);
    D.WatermarkNeverDecreases(w.file, d.calls, d.calls + 1);
    turns := a + [t];
  }

  lemma DoLoads(d: Worker, es: seq<Event>)
    requires D.Returns(d.file)
    ensures var d' := Do(d, Turn(es, true));
            && d'.calls == d.calls + 1 && d'.file == d.file && d'.merge.out == AfterDrain(d, es).merge.out
            && forall e | e in D.After(d.file, d.calls + 1).events :: e in d'.merge.heap
  {
    hide D.After;
    LoadSize(AfterDrain(d, es));
  }

  /** An event that is earlier than one that is out comes out in the end, too late. */
  lemma LateComesOut(w: Worker, seeds: multiset<Event>, top: Event, late: Event) returns (turns: seq<Turn>)
    requires D.Timed(w.file) && Accounts(w, seeds) && forall x | x in seeds :: 0 <= x.time
    requires top in w.merge.out && late in w.merge.heap && late.time < top.time <= w.merge.watermark
    ensures D.Returns(w.file) && Woken(turns) && Run(w, turns) && !Sorted(End(w, turns).merge.out)
  {
    hide D.After, D.LoadedBy, D.Timed, D.Returns, M.Drained, M.AllDue, M.ReleaseAll, Run, End,
         Accounts, Load, AfterDrain;
    D.TimedReturns(w.file);
    var b, es := DrainsInTheEnd(w, seeds);
    var d, t := End(w, b), Turn(es, true);
    EndKeeps(w, b);
    AccountsMeans(w, seeds);
    AccountsMeans(d, seeds);
    D.WatermarkNeverDecreases(w.file, w.calls, d.calls);
    DrainedIsOut(d, seeds, es);
    OneTurnMore(w, b, t);
    DoLoads(d, es);
    turns := b + [t];
    var m := AfterDrain(d, es).merge;
    ReleasedSince(w.merge, m, late);
    OutOfOrder(w.merge.out, m.out, top, late);
  }

  lemma OutOfOrder(out: seq<Event>, out': seq<Event>, top: Event, late: Event)
    requires out <= out' && top in out && late in out'[|out|..] && late.time < top.time
    ensures !Sorted(out')
  {
    var rest := out'[|out|..];
    var i :| 0 <= i < |rest| && rest[i] == late;
    var k :| 0 <= k < |out| && out[k] == top;
    assert out'[k] == top && out'[|out| + i] == late;
  }

  /** A file that does not keep up has a run whose output is not in time order, whatever the start events. */
  lemma RunOutOfOrder(file: D.File, seeds: multiset<Event>) returns (turns: seq<Turn>)
    requires D.Timed(file) && !D.KeepsUp(file) && forall x | x in seeds :: 0 <= x.time
    ensures D.Returns(file) && Woken(turns)
    ensures Run(Begin(file, seeds), turns) && !Sorted(End(Begin(file, seeds), turns).merge.out)
  {
    hide D.After, D.LoadedBy, D.Timed, D.Returns, D.KeepsUp, Accounts, Run, End, Begin;
    D.TimedReturns(file);
    var w := Begin(file, seeds);
    BeginAccounts(file, seeds);
    BeginIs(file, seeds);
    var a, top, late := LoadsLate(w, seeds);
    var b := LateComesOut(End(w, a), seeds, top, late);
    RunsJoin(w, a, b);
    turns := a + b;
  }

  /**
   The output of every run of the worker in which each turn is woken is in time order if and only if the events file
   keeps up, whatever the start events and the choices among equal times. (By RunInOrder the rest of the runs are
   then, too.)
   */
  lemma SortedIff(file: D.File, seeds: multiset<Event>)
    requires D.Timed(file) && forall x | x in seeds :: 0 <= x.time
    ensures D.Returns(file)
    ensures D.KeepsUp(file) <==>
            forall turns | Woken(turns) && Run(Begin(file, seeds), turns) ::
              Sorted(End(Begin(file, seeds), turns).merge.out)
  {
    hide Run, End, Begin, D.KeepsUp, D.Timed, Accounts, Woken;
    D.TimedReturns(file);
    var w := Begin(file, seeds);
    BeginIs(file, seeds);
    if D.KeepsUp(file) {
      forall turns | Woken(turns) && Run(w, turns) ensures Sorted(End(w, turns).merge.out) {
        BeginAccounts(file, seeds);
        BeginInOrder(file, seeds);
        RunInOrder(w, seeds, turns);
      }
    } else {
      var turns := RunOutOfOrder(file, seeds);
    }
  }

  lemma BeginIs(file: D.File, seeds: multiset<Event>)
    requires D.Returns(file)
    ensures Begin(file, seeds).file == file && Begin(file, seeds).calls == 1
  {
  }
}
