/**
 The file worker's thread and the event handler's thread together, step by step, over the lock-free queue between them:
 what the handler dispatches is what the replay loaded, in time order and never early.
 */
module Pipeline {
  import opened Events
  import opened QueueMachine
  import opened QueueInvariant
  import opened QueueRefinement
  import opened PullLoop
  import FileWorkers
  import D = Reads
  import M = Merge
  import T = Turns

  /** Where the worker's thread is: at the guard of its drain loop, inside addEvent, or waiting to be woken. */
  datatype Post = Draining | Adding | Waiting

  datatype Pipe = Pipe(worker: T.Worker, post: Post, sys: System)
  datatype Outcome = Fine(p: Pipe) | Wrong

  /** A step of the worker's own (`top`: which of the earliest events is on top of the heap), or any other step. */
  datatype Act = Work(top: Event, wake: bool) | Other(v: Move)

  ghost predicate Can(p: Pipe, a: Act) {
    match a
    case Work(top, _) =>
      (match p.post
       case Draining => p.sys.q.p.PIdle? && (p.worker.merge.heap != multiset{} ==> IsMin(top, p.worker.merge.heap))
       case Adding => p.sys.q.p.PReturn?
       case Waiting => p.sys.q.p.PIdle?)
    case Other(v) => Possible(p.sys, v) && (v.Queue? ==> v.a.ProdTick? || v.a.ConsTick?)
  }

  ghost function Through(quota: nat, p: Pipe, w: T.Worker, post: Post, v: Move): Outcome
    requires 10 <= quota && Possible(p.sys, v)
  {
    match MoveOn(quota, p.sys, v)
    case Broken => Wrong
    case Done(s) => Fine(Pipe(w, post, s))
  }

  /** The count of the drain loop after one more event, which starts over when it exceeds the quota. */
  function CountOne(quota: nat, added: nat): nat { if added + 1 > quota then 0 else added + 1 }

  /** From some files no call of loadEvents would return. */
  ghost function WorkStep(quota: nat, p: Pipe, top: Event, wake: bool): Outcome
    requires 10 <= quota && Can(p, Work(top, wake))
  {
    var w := p.worker;
    match p.post
    case Draining =>
      if w.merge.heap != multiset{} && -1 < top.time <= w.merge.watermark
      then Through(quota, p, w.(merge := M.Release(w.merge, top)), Adding, Queue(CallAdd(top)))
      else Fine(p.(post := Waiting))
    case Adding =>
      var post := if w.added + 1 > quota then Waiting else Draining;
      Through(quota, p, w.(added := CountOne(quota, w.added)), post, Queue(ProdRet))
    case Waiting =>
      if !wake then Fine(p.(post := Draining))
      else if !D.Returns(w.file) then Wrong
      else Fine(p.(worker := T.Load(w), post := Draining))
  }

  ghost function Act1(quota: nat, p: Pipe, a: Act): Outcome
    requires 10 <= quota && Can(p, a)
  {
    match a
    case Work(top, wake) => WorkStep(quota, p, top, wake)
    case Other(v) => Through(quota, p, p.worker, p.post, v)
  }

  ghost function Keep(p: Pipe, h: History, a: Act): History {
    match a
    case Other(v) => Remember(p.sys, h, v)
    case _ => h
  }

  // ---- the threads and the queue ----

  ghost predicate PipeInv(quota: nat, p: Pipe, h: History)
    requires 10 <= quota
  {
    && SysInv(quota, p.sys, h)
    && D.Returns(p.worker.file)
    && p.worker.merge.out == h.events + Pending(p.sys.q)
    && (p.post.Adding? <==> !p.sys.q.p.PIdle?)
  }

  lemma ProducerEnds(m: Machine, h: History, a: Action)
    requires Enabled(m, a) && Step(m, a).Ok? && !a.CallAdd? && !a.CallCleanUp? && !a.ProdRet?
    ensures m.p.PIdle? <==> Step(m, a).m.p.PIdle?
  {
  }

  lemma OtherKeeps(quota: nat, p: Pipe, h: History, v: Move)
    requires 10 <= quota && PipeInv(quota, p, h) && Can(p, Other(v))
    ensures Act1(quota, p, Other(v)).Fine?
    ensures PipeInv(quota, Act1(quota, p, Other(v)).p, Keep(p, h, Other(v)))
  {
    hide SysInv, Pending, Remember, TurnLoop, Step, Record, Fed, D.Returns;
    MoveKeeps(quota, p.sys, h, v);
    MoveFeeds(quota, p.sys, h, v);
    FedOne(v);
    match v {
      case Queue(a) => ProducerEnds(p.sys.q, h, a);
      case Turn(clock) => TurnKeepsProducer(quota, p.sys, clock);
    }
  }

  lemma DrainingKeeps(quota: nat, p: Pipe, h: History, top: Event, wake: bool)
    requires 10 <= quota && PipeInv(quota, p, h) && Can(p, Work(top, wake)) && p.post.Draining?
    ensures WorkStep(quota, p, top, wake).Fine? && PipeInv(quota, WorkStep(quota, p, top, wake).p, h)
  {
    hide SysInv, Pending, Fed, D.Returns;
    var m := p.worker.merge;
    if m.heap != multiset{} && -1 < top.time <= m.watermark {
      var v := Queue(CallAdd(top));
      MoveKeeps(quota, p.sys, h, v);
      MoveFeeds(quota, p.sys, h, v);
      FedOne(v);
    }
  }

  lemma AddingKeeps(quota: nat, p: Pipe, h: History, top: Event, wake: bool)
    requires 10 <= quota && PipeInv(quota, p, h) && Can(p, Work(top, wake)) && p.post.Adding?
    ensures WorkStep(quota, p, top, wake).Fine? && PipeInv(quota, WorkStep(quota, p, top, wake).p, h)
  {
    hide SysInv, Pending, Fed, D.Returns;
    var v := Queue(ProdRet);
    MoveKeeps(quota, p.sys, h, v);
    MoveFeeds(quota, p.sys, h, v);
    FedOne(v);
  }

  lemma WaitingKeeps(quota: nat, p: Pipe, h: History, top: Event, wake: bool)
    requires 10 <= quota && PipeInv(quota, p, h) && Can(p, Work(top, wake)) && p.post.Waiting?
    ensures WorkStep(quota, p, top, wake).Fine? && PipeInv(quota, WorkStep(quota, p, top, wake).p, h)
  {
    hide SysInv, Pending, D.Returns, D.After;
  }

  lemma ActKeeps(quota: nat, p: Pipe, h: History, a: Act)
    requires 10 <= quota && PipeInv(quota, p, h) && Can(p, a)
    ensures Act1(quota, p, a).Fine? && PipeInv(quota, Act1(quota, p, a).p, Keep(p, h, a))
  {
    hide PipeInv, WorkStep, Can;
    match a
    case Other(v) => OtherKeeps(quota, p, h, v);
    case Work(top, wake) =>
      match p.post {
        case Draining => DrainingKeeps(quota, p, h, top, wake);
        case Adding => AddingKeeps(quota, p, h, top, wake);
        case Waiting => WaitingKeeps(quota, p, h, top, wake);
      }
  }

  /** The worker is never stuck: it can go on by itself, or by the operation of the queue it is in. */
  lemma WorkerGoesOn(quota: nat, p: Pipe, h: History, wake: bool) returns (a: Act)
    requires 10 <= quota && PipeInv(quota, p, h)
    ensures Can(p, a)
    ensures a.Work? <==> !p.post.Adding? || p.sys.q.p.PReturn?
    ensures a.Work? ==> a.wake == wake
    ensures a.Other? ==> a.v.Queue? && a.v.a.ProdTick?
  {
    hide SysInv;
    if p.post.Adding? && !p.sys.q.p.PReturn? {
      var at := SomeUnused(p.sys.q.heap, 1);
      a := Other(Queue(ProdTick(at)));
    } else if p.worker.merge.heap == multiset{} {
      a := Work(Event(0, 0, NONE, 0, 0, 0), wake);
    } else {
      MinExists(p.worker.merge.heap);
      var top :| IsMin(top, p.worker.merge.heap);
      a := Work(top, wake);
    }
  }

  // ---- the worker's steps are turns ----

  /** The worker since `w0`, where a turn began: it has released `es` in it, the last of them maybe not counted yet. */
  ghost predicate MidTurn(quota: nat, w0: T.Worker, es: seq<Event>, w: T.Worker, post: Post) {
    && M.AllDue(w0.merge, es) && w.merge == M.ReleaseAll(w0.merge, es) && w.file == w0.file && w.calls == w0.calls
    && match post
       case Draining => w.added == w0.added + |es| <= quota
       case Adding => w.added + 1 == w0.added + |es| <= quota + 1
       case Waiting => M.Drains(quota, w0.merge, w0.added, es) && w.added == M.CountAfter(quota, w0.added, |es|)
  }

  /** The worker has gone through `turns` since `start`, and has released `es` in the one it is in. */
  ghost predicate Follows(quota: nat, start: T.Worker, turns: seq<T.Turn>, es: seq<Event>, p: Pipe)
    requires D.Returns(start.file)
  {
    T.Run(start, turns) && MidTurn(quota, T.End(start, turns), es, p.worker, p.post)
  }

  lemma NoEventsYet(quota: nat, w: T.Worker)
    requires w.added <= quota
    ensures MidTurn(quota, w, [], w, Draining)
  {
  }

  lemma DrainStep(quota: nat, w0: T.Worker, es: seq<Event>, p: Pipe, top: Event, wake: bool) returns (es': seq<Event>)
    requires 10 <= quota && Can(p, Work(top, wake)) && WorkStep(quota, p, top, wake).Fine? && !p.post.Waiting?
    requires MidTurn(quota, w0, es, p.worker, p.post)
    ensures var p' := WorkStep(quota, p, top, wake).p; MidTurn(quota, w0, es', p'.worker, p'.post)
  {
    hide M.AllDue, M.ReleaseAll, MoveOn, Possible;
    es' := es;
    var m := p.worker.merge;
    if p.post.Draining? {
      if m.heap != multiset{} && -1 < top.time <= m.watermark {
        M.OneMore(w0.merge, es, top);
        es' := es + [top];
      } else {
        M.NothingDueMeansDrained(m);
      }
    }
  }

  lemma TurnEnds(quota: nat, start: T.Worker, turns: seq<T.Turn>, es: seq<Event>, p: Pipe, top: Event, wake: bool)
    requires 10 <= quota && Can(p, Work(top, wake)) && p.post.Waiting? && start.file.quota == quota
    requires D.Returns(start.file) && Follows(quota, start, turns, es, p)
    requires p.worker.added <= quota
    ensures WorkStep(quota, p, top, wake).Fine?
    ensures Follows(quota, start, turns + [T.Turn(es, wake)], [], WorkStep(quota, p, top, wake).p)
  {
    hide M.AllDue, M.ReleaseAll, M.Drained, T.Run, T.End, D.After, D.Returns;
    var t := T.Turn(es, wake);
    T.OneTurnMore(start, turns, t);
    assert p.worker == T.AfterDrain(T.End(start, turns), es);
    NoEventsYet(quota, WorkStep(quota, p, top, wake).p.worker);
  }

  /** How many calls of loadEvents a run makes. */
  ghost function Calls(quota: nat, p: Pipe, acts: seq<Act>): nat
    requires 10 <= quota && Runs(quota, p, acts)
    decreases |acts|
  {
    if acts == [] || Act1(quota, p, acts[0]).Wrong? then 0
    else
      (if acts[0].Work? && acts[0].wake && p.post.Waiting? then 1 else 0)
      + Calls(quota, Act1(quota, p, acts[0]).p, acts[1..])
  }

  lemma ActFollows(quota: nat, start: T.Worker, turns: seq<T.Turn>, es: seq<Event>, p: Pipe, a: Act)
    returns (turns': seq<T.Turn>, es': seq<Event>)
    requires 10 <= quota && start.file.quota == quota && Can(p, a) && Act1(quota, p, a).Fine?
    requires D.Returns(start.file) && Follows(quota, start, turns, es, p)
    ensures Follows(quota, start, turns', es', Act1(quota, p, a).p)
    ensures T.Loads(turns') == T.Loads(turns) + (if a.Work? && a.wake && p.post.Waiting? then 1 else 0)
  {
    hide M.AllDue, M.ReleaseAll, M.Drains, T.Run, T.End, D.Returns, MoveOn, Possible, WorkStep, Can;
    turns', es' := turns, es;
    if a.Work? {
      if p.post.Waiting? {
        TurnEnds(quota, start, turns, es, p, a.top, a.wake);
        turns', es' := turns + [T.Turn(es, a.wake)], [];
        T.OneTurnMore(start, turns, T.Turn(es, a.wake));
      } else {
        es' := DrainStep(quota, T.End(start, turns), es, p, a.top, a.wake);
      }
    }
  }

  // ---- whole runs ----

  ghost predicate Runs(quota: nat, p: Pipe, acts: seq<Act>)
    requires 10 <= quota
    decreases |acts|
  {
    acts == [] ||
    (Can(p, acts[0]) &&
     (Act1(quota, p, acts[0]).Fine? ==> Runs(quota, Act1(quota, p, acts[0]).p, acts[1..])))
  }

  ghost function End(quota: nat, p: Pipe, acts: seq<Act>): Outcome
    requires 10 <= quota && Runs(quota, p, acts)
    decreases |acts|
  {
    if acts == [] then Fine(p)
    else if Act1(quota, p, acts[0]).Wrong? then Wrong
    else End(quota, Act1(quota, p, acts[0]).p, acts[1..])
  }

  ghost function Recalled(quota: nat, p: Pipe, h: History, acts: seq<Act>): History
    requires 10 <= quota && Runs(quota, p, acts)
    decreases |acts|
  {
    if acts == [] || Act1(quota, p, acts[0]).Wrong? then h
    else Recalled(quota, Act1(quota, p, acts[0]).p, Keep(p, h, acts[0]), acts[1..])
  }

  lemma {:induction false} EndKeeps(quota: nat, p: Pipe, h: History, acts: seq<Act>)
    requires 10 <= quota && PipeInv(quota, p, h) && Runs(quota, p, acts)
    ensures End(quota, p, acts).Fine? && PipeInv(quota, End(quota, p, acts).p, Recalled(quota, p, h, acts))
    decreases |acts|
  {
    hide PipeInv, Act1, Can, Keep;
    if acts != [] {
      ActKeeps(quota, p, h, acts[0]);
      EndKeeps(quota, Act1(quota, p, acts[0]).p, Keep(p, h, acts[0]), acts[1..]);
    }
  }

  /**
   Whatever the other thread does, the worker goes through turns, step by step: each drain releases the events due
   until none is or the count stops it, and each wake-up loads what the replay loads next.
   */
  lemma {:induction false} WorkerTakesTurns(
    quota: nat, start: T.Worker, turns0: seq<T.Turn>, es0: seq<Event>, p: Pipe, acts: seq<Act>)
    returns (turns: seq<T.Turn>, es: seq<Event>)
    requires 10 <= quota && start.file.quota == quota && Runs(quota, p, acts) && End(quota, p, acts).Fine?
    requires D.Returns(start.file) && Follows(quota, start, turns0, es0, p)
    ensures Follows(quota, start, turns, es, End(quota, p, acts).p)
    ensures T.Loads(turns) == T.Loads(turns0) + Calls(quota, p, acts)
    decreases |acts|
  {
    hide Follows, Act1, Can, D.Returns;
    turns, es := turns0, es0;
    if acts != [] {
      turns, es := ActFollows(quota, start, turns, es, p, acts[0]);
      turns, es := WorkerTakesTurns(quota, start, turns, es, Act1(quota, p, acts[0]).p, acts[1..]);
    }
  }

  /** The two threads right after startup: the heap is filled, nothing is released and the queue is empty. */
  ghost predicate Starts(quota: nat, p: Pipe, seeds: multiset<Event>) {
    && D.Returns(p.worker.file) && p.worker.file.quota == quota && p.worker == T.Begin(p.worker.file, seeds)
    && p.post.Draining?
    && exists dummy: Addr :: dummy != NULL && p.sys == NewSystem(Handler, dummy)
  }

  /** A file worker whose startup has returned is where the runs of this module begin. */
  lemma StartedWorkerStarts(fw: FileWorkers.FileWorker, seeds: multiset<Event>, dummy: Addr)
    requires fw.Running(seeds, 1) && fw.AsWorker(1) == T.Begin(fw.File(), seeds) && dummy != NULL
    ensures Starts(fw.quota, Pipe(fw.AsWorker(1), Draining, NewSystem(Handler, dummy)), seeds)
  {
    hide D.Returns, D.After, D.LoadedBy;
  }

  lemma StartsInv(quota: nat, p: Pipe, seeds: multiset<Event>, dummy: Addr)
    requires 10 <= quota && Starts(quota, p, seeds) && dummy != NULL && p.sys == NewSystem(Handler, dummy)
    ensures PipeInv(quota, p, Start(dummy))
    ensures Follows(quota, p.worker, [], [], p)
    ensures T.Accounts(p.worker, seeds) && M.InOrder(p.worker.merge) && p.worker.calls == 1
  {
    hide SysInv, D.After;
    StartInv(quota, Handler, dummy);
    T.BeginAccounts(p.worker.file, seeds);
  }

  /** What the turns say of a worker in the middle of one. */
  lemma FollowerAccounts(
    quota: nat, start: T.Worker, seeds: multiset<Event>, turns: seq<T.Turn>, es: seq<Event>, p: Pipe)
    requires D.Returns(start.file) && Follows(quota, start, turns, es, p) && T.Accounts(start, seeds)
    ensures p.worker.file == start.file && p.worker.calls == start.calls + T.Loads(turns)
    ensures p.worker.merge.heap + multiset(p.worker.merge.out) == seeds + D.LoadedBy(start.file, p.worker.calls)
    ensures D.Timed(start.file) && D.KeepsUp(start.file) && M.InOrder(start.merge) ==> M.InOrder(p.worker.merge)
  {
    hide D.Returns, D.Timed, D.KeepsUp, D.After, D.LoadedBy, M.InOrder, M.AllDue, M.ReleaseAll, M.Drains, T.Run, T.End;
    T.RunAccounts(start, seeds, turns);
    var w := T.End(start, turns);
    M.AllDueConserves(w.merge, es);
    M.ReleaseAllIs(w.merge, es);
    if D.Timed(start.file) && D.KeepsUp(start.file) && M.InOrder(start.merge) {
      T.RunInOrder(start, seeds, turns);
      M.AllDueKeepsOrder(w.merge, es);
    }
  }

  /**
   End to end, for every interleaving of the two threads: nothing goes wrong; what the handler dispatched is a prefix
   of what the worker released, and no event is dispatched before its time; what was released and what waits in the
   heap are together the start events and all that the calls of loadEvents loaded, the one at startup and one for each
   wake-up; and released and dispatched events are in time order if the events file keeps up.
   */
  lemma EndToEnd(quota: nat, p: Pipe, seeds: multiset<Event>, acts: seq<Act>)
    returns (turns: seq<T.Turn>, es: seq<Event>)
    requires 10 <= quota && Starts(quota, p, seeds) && Runs(quota, p, acts)
    ensures End(quota, p, acts).Fine? && D.Returns(p.worker.file)
    ensures Follows(quota, p.worker, turns, es, End(quota, p, acts).p)
    ensures var p' := End(quota, p, acts).p;
            var dispatched, released := p'.sys.loop.handled, p'.worker.merge.out;
            && EventsOf(dispatched) <= released
            && (forall i | 0 <= i < |dispatched| :: dispatched[i].e.time <= dispatched[i].at)
            && p'.worker.merge.heap + multiset(released)
               == seeds + D.LoadedBy(p.worker.file, 1 + Calls(quota, p, acts))
            && (D.Timed(p.worker.file) && D.KeepsUp(p.worker.file) ==> Sorted(released) && Sorted(EventsOf(dispatched)))
  {
    hide SysInv, Pending, HandledWell, Follows, End, Runs, Calls, Recalled, T.Accounts, M.InOrder,
         D.Returns, D.Timed, D.KeepsUp, D.After, D.LoadedBy;
    var dummy: Addr :| dummy != NULL && p.sys == NewSystem(Handler, dummy);
    StartsInv(quota, p, seeds, dummy);
    EndKeeps(quota, p, Start(dummy), acts);
    var p', h' := End(quota, p, acts).p, Recalled(quota, p, Start(dummy), acts);
    InvHandlesWell(quota, p'.sys, h', p'.worker.merge.out);
    Prefixes(quota, p'.sys, p'.worker.merge.out);
    turns, es := WorkerTakesTurns(quota, p.worker, [], [], p, acts);
    FollowerAccounts(quota, p.worker, seeds, turns, es, p');
    if D.Timed(p.worker.file) && D.KeepsUp(p.worker.file) {
      M.OrderIsSorted(p'.worker.merge);
      PrefixSorted(EventsOf(p'.sys.loop.handled), p'.worker.merge.out);
    }
  }

  lemma Prefixes(quota: nat, s: System, released: seq<Event>)
    requires 10 <= quota && HandledWell(quota, s, released)
    ensures EventsOf(s.loop.handled) <= released
    ensures forall i | 0 <= i < |s.loop.handled| :: s.loop.handled[i].e.time <= s.loop.handled[i].at
  {
  }

  lemma PrefixSorted(a: seq<Event>, b: seq<Event>)
    requires a <= b && Sorted(b)
    ensures Sorted(a)
  {
  }

  // ---- what is due is dispatched ----

  ghost function Others(moves: seq<Move>): seq<Act> { seq(|moves|, i requires 0 <= i < |moves| => Other(moves[i])) }

  /** Moves of the handler alone leave the worker where it is. */
  lemma {:induction false} HandlerAlone(quota: nat, p: Pipe, moves: seq<Move>)
    requires 10 <= quota && Playable(quota, p.sys, moves) && Play(quota, p.sys, moves).Done?
    requires forall v | v in moves :: Own(v)
    ensures Runs(quota, p, Others(moves))
    ensures End(quota, p, Others(moves)) == Fine(p.(sys := Play(quota, p.sys, moves).s))
    decreases |moves|
  {
    hide MoveOn, Possible;
    if moves != [] {
      assert moves[0] in moves && Own(moves[0]);
      var p' := Act1(quota, p, Other(moves[0])).p;
      HandlerAlone(quota, p', moves[1..]);
      assert Others(moves)[1..] == Others(moves[1..]);
    }
  }

  lemma {:induction false} RunsJoin(quota: nat, p: Pipe, a: seq<Act>, b: seq<Act>)
    requires 10 <= quota && Runs(quota, p, a) && End(quota, p, a).Fine? && Runs(quota, End(quota, p, a).p, b)
    ensures Runs(quota, p, a + b) && End(quota, p, a + b) == End(quota, End(quota, p, a).p, b)
    decreases |a|
  {
    hide Act1, Can;
    if a == [] {
      assert a + b == b;
    } else {
      assert (a + b)[0] == a[0] && (a + b)[1..] == a[1..] + b;
      RunsJoin(quota, Act1(quota, p, a[0]).p, a[1..], b);
    }
  }

  /**
   From any point of any run at which the handler begins a turn and the worker is between two pushes, the handler
   alone comes to the end of its turn, and has then dispatched exactly the due ones among the events pushed and not
   yet dispatched.
   */
  lemma DueIsDispatched(quota: nat, p: Pipe, seeds: multiset<Event>, acts: seq<Act>, clock: int)
    returns (more: seq<Act>)
    requires 10 <= quota && Starts(quota, p, seeds) && Runs(quota, p, acts)
    ensures End(quota, p, acts).Fine?
    ensures var p1 := End(quota, p, acts).p;
            p1.sys.loop.place.AtTurn? && p1.sys.q.p.PIdle? ==>
              && |p1.sys.loop.handled| <= |p1.worker.merge.out| && Runs(quota, p, acts + more)
              && var queue := p1.worker.merge.out[|p1.sys.loop.handled|..];
                 var k := DueCount(queue, clock);
                 && |more| <= 16 * k + 8 && End(quota, p, acts + more).Fine?
                 && var p2 := End(quota, p, acts + more).p;
                    && p2.worker == p1.worker
                    && p2.sys.loop.handled == p1.sys.loop.handled + HandledAt(queue[..k], clock)
  {
    hide SysInv, Pending, Reaches, Playable, Play, Follows, End, Runs, D.Returns, D.After, T.Accounts, M.InOrder;
    var dummy: Addr :| dummy != NULL && p.sys == NewSystem(Handler, dummy);
    StartsInv(quota, p, seeds, dummy);
    EndKeeps(quota, p, Start(dummy), acts);
    var p1, h := End(quota, p, acts).p, Recalled(quota, p, Start(dummy), acts);
    more := [];
    if p1.sys.loop.place.AtTurn? && p1.sys.q.p.PIdle? {
      AllQueued(quota, p1.sys, h, p1.worker.merge.out);
      var moves, s', h' := TurnCompletes(quota, p1.sys, h, clock);
      ReachesMeans(quota, p1.sys, h, moves, s', h');
      HandlerAlone(quota, p1, moves);
      RunsJoin(quota, p, acts, Others(moves));
      more := Others(moves);
    }
  }
}
