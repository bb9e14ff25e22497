/**
 The two loops that consume a queue, running against any producer on the lock-free queue itself: the event handler's,
 which keeps the time of the next event over its turns, and the server's, which ignores whether getEvent succeeded.
 */
module PullLoop {
  import opened Events
  import opened QueueMachine
  import opened QueueInvariant
  import opened QueueRefinement
  import S = Signalling

  datatype Kind = Handler | Server

  /** Where a loop is; in between it is inside one of the queue's operations. */
  datatype Place =
    | AtTurn      // takes the time, and asks for the next event's time if it has none
    | Peeking     // inside nextEventTime
    | AtPull      // next <= now && next >= 0
    | Getting     // inside getEvent
    | AtPeek      // an event was handled: asks for the next one's time

  datatype Handled = Handled(e: Event, at: int)

  /**
   `job` is the shared pointer that the server's loop keeps from one pull of a turn to the next; `handled` lists what
   was handled, and when.
   */
  datatype Loop = Loop(
    kind: Kind, place: Place, next: int, now: int, job: Option<Event>, handled: seq<Handled>,
    counters: S.Counters, totals: S.Totals)

  datatype System = System(q: Machine, loop: Loop)
  datatype Result = Done(s: System) | Broken

  /**
   A step of the producer or inside a consumer's operation, or a step of the loop itself, which may read the clock.
   */
  datatype Move = Queue(a: Action) | Turn(clock: int)

  function NewLoop(kind: Kind): Loop { Loop(kind, AtTurn, -1, 0, None, [], S.START, S.NOTHING) }

  function NewSystem(kind: Kind, dummy: Addr): System { System(Init(dummy), NewLoop(kind)) }

  predicate Possible(s: System, v: Move) {
    match v
    case Queue(a) => (ProducerAction(a) || a == ConsTick) && Enabled(s.q, a)
    case Turn(_) =>
      match s.loop.place
      case Peeking => s.q.c.NReturn?
      case Getting => s.q.c.GReturn?
      case _ => s.q.c.CIdle?
  }

  function Count(quota: nat, loop: Loop, step: S.Step): Loop
    requires 10 <= quota
  {
    if loop.kind.Server? then loop
    else
      var (c, t) := S.Next(quota, loop.counters, loop.totals, step);
      loop.(counters := c, totals := t)
  }

  /** What the loop does with the outcome of getEvent: the handler looks at it, the server does not. */
  function Handle(quota: nat, loop: Loop, ok: bool, job: Option<Event>): Option<Loop>
    requires 10 <= quota
  {
    match loop.kind
    case Handler =>
      if !ok then Some(loop.(place := AtPull))
      else if job.None? then None
      else Some(Count(quota, loop.(handled := loop.handled + [Handled(job.value, loop.now)], place := AtPeek), S.Pull))
    case Server =>
      var job' := if ok then job else loop.job;
      Some(loop.(job := job', place := AtPeek,
                 handled := loop.handled + (if job'.Some? then [Handled(job'.value, loop.now)] else [])))
  }

  function TurnLoop(quota: nat, s: System, clock: int): Result
    requires 10 <= quota && Possible(s, Turn(clock))
  {
    match s.loop.place
    case AtTurn =>
      var loop := Count(quota, s.loop.(now := clock, job := None), S.EndOfPass);
      if loop.kind.Server? || loop.next < 0
      then Done(System(Step(s.q, CallPeek).m, loop.(place := Peeking)))
      else Done(System(s.q, loop.(place := AtPull)))
    case Peeking => Done(System(Step(s.q, ConsRet).m, s.loop.(next := s.q.c.time, place := AtPull)))
    case AtPull =>
      if s.loop.next <= s.loop.now && s.loop.next >= 0
      then Done(System(Step(s.q, CallGet).m, s.loop.(place := Getting)))
      else Done(System(s.q, s.loop.(place := AtTurn)))
    case Getting =>
      (match Handle(quota, s.loop, s.q.c.ok, s.q.c.job)
       case None => Broken
       case Some(loop) => Done(System(Step(s.q, ConsRet).m, loop)))
    case AtPeek => Done(System(Step(s.q, CallPeek).m, s.loop.(place := Peeking)))
  }

  function MoveOn(quota: nat, s: System, v: Move): Result
    requires 10 <= quota && Possible(s, v)
  {
    match v
    case Queue(a) => (match Step(s.q, a) case Fault => Broken case Ok(m) => Done(s.(q := m)))
    case Turn(clock) => TurnLoop(quota, s, clock)
  }

  function Remember(s: System, h: History, v: Move): History {
    if v.Queue? then Record(s.q, h, v.a) else h
  }

  // ---- the invariant ----

  /** How many events the loop has been handed. */
  function TakenCount(m: Machine, h: History): int {
    if m.c.GReturn? && m.c.ok then h.d - 1 else h.d
  }

  predicate InGet(c: Consumer) {
    || c.GLoadDivider? || c.GLoadLast? || c.GTestNext? || c.GReadNext? || c.GReadEptr?
    || c.GReread? || c.GStore? || c.GReturn?
  }

  predicate InPeek(c: Consumer) {
    c.NLoadDivider? || c.NLoadLast? || c.NTestNext? || c.NReadNext? || c.NReadEptr? || c.NReturn?
  }

  /** The loop handled exactly the events taken from the queue, in order, each once and none before its time. */
  ghost predicate HandledInOrder(s: System, h: History) {
    && |s.loop.handled| == TakenCount(s.q, h) <= |h.events|
    && (forall i | 0 <= i < |s.loop.handled| ::
          s.loop.handled[i].e == h.events[i] && s.loop.handled[i].e.time <= s.loop.handled[i].at)
  }

  /** A nonnegative `next` is the time of the event that getEvent will return. */
  ghost predicate NextIsPromised(s: System, h: History)
    requires Control(s.q, h)
  {
    match s.loop.place
    case AtTurn => s.q.c.CIdle? && (s.loop.next >= 0 ==> Promised(s.q, h, s.loop.next))
    case AtPull => s.q.c.CIdle? && (s.loop.next >= 0 ==> Promised(s.q, h, s.loop.next))
    case Getting => InGet(s.q.c) && 0 <= s.loop.next <= s.loop.now && Promised(s.q, h, s.loop.next)
    case Peeking => InPeek(s.q.c)
    case AtPeek => s.q.c.CIdle?
  }

  /** The handler has counted every event it handled. */
  ghost predicate Counted(quota: nat, kind: Kind, n: nat, c: S.Counters, t: S.Totals)
    requires 10 <= quota
  {
    kind.Handler? ==> t.handled == n && exists lost: nat :: S.InvWith(quota, c, t, lost)
  }

  ghost predicate LoopCounted(quota: nat, loop: Loop)
    requires 10 <= quota
  {
    Counted(quota, loop.kind, |loop.handled|, loop.counters, loop.totals)
  }

  ghost predicate SysInv(quota: nat, s: System, h: History)
    requires 10 <= quota
  {
    Inv(s.q, h) && HandledInOrder(s, h) && NextIsPromised(s, h) && LoopCounted(quota, s.loop)
  }

  lemma StartInv(quota: nat, kind: Kind, dummy: Addr)
    requires 10 <= quota && dummy != NULL
    ensures SysInv(quota, NewSystem(kind, dummy), Start(dummy))
  {
    InitInv(dummy);
    var lost := S.RunKeeps(quota, []);
  }

  // ---- what the queue guarantees a loop ----

  lemma PeekPromises(m: Machine, h: History)
    requires Inv(m, h) && m.c.NReturn? && 0 <= m.c.time
    ensures Promised(m, h, m.c.time)
  {
  }

  lemma GetsPromised(m: Machine, h: History, t: int)
    requires Inv(m, h) && Promised(m, h, t) && m.c.GReturn?
    ensures 0 < h.d <= |h.events| && m.c.ok && m.c.job == Some(h.events[h.d - 1]) && h.events[h.d - 1].time == t
  {
  }

  lemma QueueMoveTakes(m: Machine, h: History, a: Action)
    requires Control(m, h) && Enabled(m, a) && Step(m, a).Ok? && (ProducerAction(a) || a == ConsTick)
    ensures TakenCount(Step(m, a).m, Record(m, h, a)) == TakenCount(m, h)
    ensures h.events <= Record(m, h, a).events
    ensures var c, c' := m.c, Step(m, a).m.c;
            && (c.CIdle? ==> c'.CIdle?) && (InGet(c) ==> InGet(c')) && (InPeek(c) ==> InPeek(c'))
            && (a.ConsTick? ==> !c.NReturn?) && (ProducerAction(a) ==> c' == c)
  {
  }

  lemma QueueMoveKeeps(quota: nat, s: System, h: History, a: Action)
    requires 10 <= quota && SysInv(quota, s, h) && Possible(s, Queue(a))
    ensures MoveOn(quota, s, Queue(a)).Done?
    ensures SysInv(quota, MoveOn(quota, s, Queue(a)).s, Record(s.q, h, a))
  {
    hide Inv, Control, Promised, Step, Record, Enabled, LoopCounted;
    InvHasControl(s.q, h);
    StepInv(s.q, h, a);
    InvHasControl(Step(s.q, a).m, Record(s.q, h, a));
    QueueMoveTakes(s.q, h, a);
    if s.loop.place.Getting? || ((s.loop.place.AtTurn? || s.loop.place.AtPull?) && s.loop.next >= 0) {
      PromiseStep(s.q, h, s.loop.next, a);
    }
  }

  lemma InvHasControl(m: Machine, h: History)
    requires Inv(m, h)
    ensures Control(m, h)
    ensures 0 <= TakenCount(m, h) <= |h.events|
  {
  }

  lemma CallMoves(m: Machine, h: History, a: Action)
    requires Inv(m, h) && Enabled(m, a) && !ProducerAction(a) && !a.ConsTick?
    ensures Step(m, a).Ok? && Record(m, h, a) == h && Inv(Step(m, a).m, h) && Control(Step(m, a).m, h)
    ensures Step(m, a).m == m.(c := if a.CallGet? then GLoadDivider else if a.CallPeek? then NLoadDivider else CIdle)
  {
    StepInv(m, h, a);
  }

  lemma PullCounts(quota: nat, loop: Loop, x: Handled)
    requires 10 <= quota && LoopCounted(quota, loop) && loop.kind.Handler?
    ensures LoopCounted(quota, Count(quota, loop.(handled := loop.handled + [x], place := AtPeek), S.Pull))
  {
    var lost: nat :| S.InvWith(quota, loop.counters, loop.totals, lost);
    S.PullKeeps(quota, loop.counters, loop.totals, lost);
    var (c, t) := S.Next(quota, loop.counters, loop.totals, S.Pull);
    assert S.InvWith(quota, c, t, lost);
  }

  lemma PassCounts(quota: nat, loop: Loop)
    requires 10 <= quota && LoopCounted(quota, loop)
    ensures LoopCounted(quota, Count(quota, loop, S.EndOfPass))
  {
    if loop.kind.Handler? {
      var lost: nat :| S.InvWith(quota, loop.counters, loop.totals, lost);
      S.EndOfPassKeeps(quota, loop.counters, loop.totals, lost);
      var (c, t) := S.Next(quota, loop.counters, loop.totals, S.EndOfPass);
      var lost' := if S.AfterPass(quota, loop.counters).1 then lost + loop.counters.handled % S.Share(quota) else lost;
      assert S.InvWith(quota, c, t, lost');
    }
  }

  lemma AtTurnKeeps(quota: nat, s: System, h: History, clock: int)
    requires 10 <= quota && SysInv(quota, s, h) && Possible(s, Turn(clock)) && s.loop.place.AtTurn?
    ensures TurnLoop(quota, s, clock).Done? && SysInv(quota, TurnLoop(quota, s, clock).s, h)
  {
    hide Inv, Control, S.Next, Counted, Step;
    PassCounts(quota, s.loop.(now := clock, job := None));
    CallMoves(s.q, h, CallPeek);
  }

  lemma PeekingKeeps(quota: nat, s: System, h: History, clock: int)
    requires 10 <= quota && SysInv(quota, s, h) && Possible(s, Turn(clock)) && s.loop.place.Peeking?
    ensures TurnLoop(quota, s, clock).Done? && SysInv(quota, TurnLoop(quota, s, clock).s, h)
  {
    hide Inv, Control, Counted, Step, Promised, Record;
    CallMoves(s.q, h, ConsRet);
    InvHasControl(s.q, h);
    if s.q.c.time >= 0 {
      PeekPromises(s.q, h);
      PromiseStep(s.q, h, s.q.c.time, ConsRet);
    }
  }

  lemma AtPullKeeps(quota: nat, s: System, h: History, clock: int)
    requires 10 <= quota && SysInv(quota, s, h) && Possible(s, Turn(clock)) && s.loop.place.AtPull?
    ensures TurnLoop(quota, s, clock).Done? && SysInv(quota, TurnLoop(quota, s, clock).s, h)
  {
    hide Inv, Control, Counted, Step, Promised, Record;
    CallMoves(s.q, h, CallGet);
    InvHasControl(s.q, h);
    if s.loop.next >= 0 {
      PromiseStep(s.q, h, s.loop.next, CallGet);
    }
  }

  lemma GettingKeeps(quota: nat, s: System, h: History, clock: int)
    requires 10 <= quota && SysInv(quota, s, h) && Possible(s, Turn(clock)) && s.loop.place.Getting?
    ensures s.q.c.ok && s.q.c.job.Some?
    ensures TurnLoop(quota, s, clock).Done? && SysInv(quota, TurnLoop(quota, s, clock).s, h)
  {
    hide Inv, Control, Counted, Step, Promised, S.Next;
    InvHasControl(s.q, h);
    GetsPromised(s.q, h, s.loop.next);
    CallMoves(s.q, h, ConsRet);
    if s.loop.kind.Handler? {
      PullCounts(quota, s.loop, Handled(s.q.c.job.value, s.loop.now));
    } else {
      ServerCountsNothing(quota, s.loop, TurnLoop(quota, s, clock).s.loop);
    }
  }

  lemma ServerCountsNothing(quota: nat, loop: Loop, loop': Loop)
    requires 10 <= quota && loop.kind.Server? && loop'.kind.Server?
    ensures LoopCounted(quota, loop')
  {
  }

  lemma AtPeekKeeps(quota: nat, s: System, h: History, clock: int)
    requires 10 <= quota && SysInv(quota, s, h) && Possible(s, Turn(clock)) && s.loop.place.AtPeek?
    ensures TurnLoop(quota, s, clock).Done? && SysInv(quota, TurnLoop(quota, s, clock).s, h)
  {
    hide Inv, Control, Counted, Step;
    CallMoves(s.q, h, CallPeek);
  }

  /** No move of the producer, of the queue or of the loop goes wrong, and each keeps the invariant. */
  lemma MoveKeeps(quota: nat, s: System, h: History, v: Move)
    requires 10 <= quota && SysInv(quota, s, h) && Possible(s, v)
    ensures MoveOn(quota, s, v).Done?
    ensures SysInv(quota, MoveOn(quota, s, v).s, Remember(s, h, v))
  {
    hide SysInv, TurnLoop, Possible;
    match v
    case Queue(a) => QueueMoveKeeps(quota, s, h, a);
    case Turn(clock) =>
      match s.loop.place {
        case AtTurn => AtTurnKeeps(quota, s, h, clock);
        case Peeking => PeekingKeeps(quota, s, h, clock);
        case AtPull => AtPullKeeps(quota, s, h, clock);
        case Getting => GettingKeeps(quota, s, h, clock);
        case AtPeek => AtPeekKeeps(quota, s, h, clock);
      }
  }

  // ---- whole runs ----

  predicate Playable(quota: nat, s: System, moves: seq<Move>)
    requires 10 <= quota
    decreases |moves|
  {
    moves == [] ||
    (Possible(s, moves[0]) &&
     (MoveOn(quota, s, moves[0]).Done? ==> Playable(quota, MoveOn(quota, s, moves[0]).s, moves[1..])))
  }

  function Play(quota: nat, s: System, moves: seq<Move>): Result
    requires 10 <= quota && Playable(quota, s, moves)
    decreases |moves|
  {
    if moves == [] then Done(s)
    else if MoveOn(quota, s, moves[0]).Broken? then Broken
    else Play(quota, MoveOn(quota, s, moves[0]).s, moves[1..])
  }

  function Recall(quota: nat, s: System, h: History, moves: seq<Move>): History
    requires 10 <= quota && Playable(quota, s, moves)
    decreases |moves|
  {
    if moves == [] || MoveOn(quota, s, moves[0]).Broken? then h
    else Recall(quota, MoveOn(quota, s, moves[0]).s, Remember(s, h, moves[0]), moves[1..])
  }

  /** The events the producer passed to addEvent. */
  function Fed(moves: seq<Move>): seq<Event> {
    if moves == [] then []
    else (if moves[0].Queue? then Added([moves[0].a]) else []) + Fed(moves[1..])
  }

  function EventsOf(handled: seq<Handled>): seq<Event> { seq(|handled|, i requires 0 <= i < |handled| => handled[i].e) }

  lemma MoveFeeds(quota: nat, s: System, h: History, v: Move)
    requires 10 <= quota && Possible(s, v) && MoveOn(quota, s, v).Done?
    ensures Remember(s, h, v).events + Pending(MoveOn(quota, s, v).s.q) == h.events + Pending(s.q) + Fed([v])
  {
    if v.Queue? {
      hide Step, Record, Pending, Added;
      StepAdds(s.q, h, v.a);
      assert Fed([v]) == Added([v.a]);
    } else {
      TurnKeepsProducer(quota, s, v.clock);
    }
  }

  lemma TurnKeepsProducer(quota: nat, s: System, clock: int)
    requires 10 <= quota && Possible(s, Turn(clock)) && TurnLoop(quota, s, clock).Done?
    ensures TurnLoop(quota, s, clock).s.q.p == s.q.p && TurnLoop(quota, s, clock).s.loop.kind == s.loop.kind
  {
    hide S.Next;
  }

  lemma {:induction false} PlayKeeps(quota: nat, s: System, h: History, moves: seq<Move>)
    requires 10 <= quota && SysInv(quota, s, h) && Playable(quota, s, moves)
    ensures Play(quota, s, moves).Done?
    ensures SysInv(quota, Play(quota, s, moves).s, Recall(quota, s, h, moves))
    ensures Recall(quota, s, h, moves).events + Pending(Play(quota, s, moves).s.q)
         == h.events + Pending(s.q) + Fed(moves)
    decreases |moves|
  {
    hide SysInv, MoveOn, Possible, Remember, Pending;
    if moves == [] {
    } else {
      MoveKeeps(quota, s, h, moves[0]);
      MoveFeeds(quota, s, h, moves[0]);
      var s', h' := MoveOn(quota, s, moves[0]).s, Remember(s, h, moves[0]);
      PlayKeeps(quota, s', h', moves[1..]);
      FedSplits(moves);
      var a, b, c := h.events + Pending(s.q), Fed([moves[0]]), Fed(moves[1..]);
      assert a + b + c == a + (b + c);
    }
  }

  lemma FedOne(v: Move)
    ensures Fed([v]) == if v.Queue? && v.a.CallAdd? then [v.a.e] else []
  {
    assert [v][1..] == [];
    if v.Queue? {
      assert [v.a][1..] == [];
      assert Added([v.a]) == if v.a.CallAdd? then [v.a.e] else [];
    }
  }

  lemma FedSplits(moves: seq<Move>)
    requires moves != []
    ensures Fed(moves) == Fed([moves[0]]) + Fed(moves[1..])
  {
  }

  /** What a loop has done by the end of any run. */
  ghost predicate HandledWell(quota: nat, s: System, fed: seq<Event>)
    requires 10 <= quota
  {
    && EventsOf(s.loop.handled) <= fed
    && (forall i | 0 <= i < |s.loop.handled| :: s.loop.handled[i].e.time <= s.loop.handled[i].at)
    && (s.loop.place.Getting? && s.q.c.GReturn? ==> s.q.c.ok)
  }

  lemma InvHandlesWell(quota: nat, s: System, h: History, fed: seq<Event>)
    requires 10 <= quota && SysInv(quota, s, h) && h.events <= fed
    ensures HandledWell(quota, s, fed)
  {
    hide Inv;
    InvHasControl(s.q, h);
    if s.loop.place.Getting? && s.q.c.GReturn? {
      GetsPromised(s.q, h, s.loop.next);
    }
  }

  /**
   Whatever the producer does and however the threads interleave, both loops handle the events added in order, each
   once and none before its time, and never see a pull fail, although the server's loop would handle its last job
   again if one did.
   */
  lemma EachJobHandledOnce(quota: nat, kind: Kind, dummy: Addr, moves: seq<Move>)
    requires 10 <= quota && dummy != NULL && Playable(quota, NewSystem(kind, dummy), moves)
    ensures Play(quota, NewSystem(kind, dummy), moves).Done?
    ensures HandledWell(quota, Play(quota, NewSystem(kind, dummy), moves).s, Fed(moves))
  {
    hide SysInv, Pending, HandledWell;
    var s, h := NewSystem(kind, dummy), Start(dummy);
    StartInv(quota, kind, dummy);
    PlayKeeps(quota, s, h, moves);
    NothingPending(kind, dummy);
    var h' := Recall(quota, s, h, moves);
    assert Fed(moves) == h'.events + Pending(Play(quota, s, moves).s.q);
    InvHandlesWell(quota, Play(quota, s, moves).s, h', Fed(moves));
  }

  lemma NothingPending(kind: Kind, dummy: Addr)
    ensures Pending(NewSystem(kind, dummy).q) == []
  {
  }

  lemma MoveKeepsKind(quota: nat, s: System, v: Move)
    requires 10 <= quota && Possible(s, v) && MoveOn(quota, s, v).Done?
    ensures MoveOn(quota, s, v).s.loop.kind == s.loop.kind
  {
    if v.Turn? {
      TurnKeepsProducer(quota, s, v.clock);
    }
  }

  lemma {:induction false} PlayKeepsKind(quota: nat, s: System, moves: seq<Move>)
    requires 10 <= quota && Playable(quota, s, moves) && Play(quota, s, moves).Done?
    ensures Play(quota, s, moves).s.loop.kind == s.loop.kind
    decreases |moves|
  {
    hide MoveOn, Possible;
    if moves != [] {
      MoveKeepsKind(quota, s, moves[0]);
      PlayKeepsKind(quota, MoveOn(quota, s, moves[0]).s, moves[1..]);
    }
  }

  /** The handler's requests keep up with what it handled: S*K <= H < (S+R+1)*K for S signals and R counter resets. */
  lemma HandlerSignalsKeepUp(quota: nat, dummy: Addr, moves: seq<Move>)
    requires 10 <= quota && dummy != NULL && Playable(quota, NewSystem(Handler, dummy), moves)
    ensures Play(quota, NewSystem(Handler, dummy), moves).Done?
    ensures var loop := Play(quota, NewSystem(Handler, dummy), moves).s.loop;
            var k := quota / 10;
            && loop.totals.sent * k <= |loop.handled| < (loop.totals.sent + loop.totals.resets + 1) * k
            && loop.totals.gap + 1 <= 2 * k - 1
  {
    hide Inv, HandledInOrder, NextIsPromised, S.InvWith;
    var s, h := NewSystem(Handler, dummy), Start(dummy);
    StartInv(quota, Handler, dummy);
    PlayKeeps(quota, s, h, moves);
    PlayKeepsKind(quota, s, moves);
    var loop := Play(quota, s, moves).s.loop;
    var lost: nat :| S.InvWith(quota, loop.counters, loop.totals, lost);
    S.Bounds(quota, loop.counters, loop.totals, lost);
  }

  // ---- what is due is pulled ----

  /** The loop leaves off pulling only when it knows of no event, or of one that is not due yet. */
  lemma StopsOnlyWhenNothingIsDue(quota: nat, s: System, clock: int)
    requires 10 <= quota && Possible(s, Turn(clock)) && s.loop.place.AtPull?
    ensures TurnLoop(quota, s, clock).Done?
    ensures var s' := TurnLoop(quota, s, clock).s;
            if s.loop.next < 0 || s.loop.now < s.loop.next then s'.loop.place.AtTurn?
            else s'.loop.place.Getting? && s'.q.c == GLoadDivider
  {
  }

  /** A move of the loop itself, or of the consumer inside the queue. */
  predicate Own(v: Move) { v.Turn? || v == Queue(ConsTick) }

  /** Steps until the consumer's operation returns. */
  function StepsLeft(c: Consumer): nat {
    match c
    case GLoadDivider => 7
    case GLoadLast(_) => 6
    case GTestNext(_) => 5
    case GReadNext(_) => 4
    case GReadEptr(_, _) => 3
    case GReread(_, _) => 2
    case GStore(_, _) => 1
    case NLoadDivider => 5
    case NLoadLast(_) => 4
    case NTestNext(_) => 3
    case NReadNext(_) => 2
    case NReadEptr(_) => 1
    case _ => 0
  }

  /** The time of the oldest event queued, -1 when there is none. */
  ghost function Front(h: History): int
    requires Ordered(h)
  {
    if h.d < h.l then h.events[h.d].time else -1
  }

  /** While the producer rests, what nextEventTime returns is the time of the oldest event. */
  ghost predicate Exact(m: Machine, h: History)
    requires Ordered(h)
  {
    m.c.NReturn? ==> m.c.time == Front(h)
  }

  lemma OwnTick(m: Machine, h: History)
    requires Inv(m, h) && Enabled(m, ConsTick) && Exact(m, h)
    ensures Step(m, ConsTick).Ok?
    ensures var m', h' := Step(m, ConsTick).m, Record(m, h, ConsTick);
            && Inv(m', h') && Exact(m', h') && StepsLeft(m'.c) < StepsLeft(m.c) && m'.p == m.p
            && h' == h.(d := h'.d) && TakenCount(m', h') == TakenCount(m, h)
            && (m.c.NReturn? || InPeek(m.c) ==> h'.d == h.d)
  {
    hide Live, Chain, Data, ProducerKnows, Marks;
    DividerIsNotLast(m, h);
    StepInv(m, h, ConsTick);
  }

  /** After moves `moves` the system `s` with history `h` is `s'` with `h'`, and the producer has done nothing. */
  ghost predicate Reaches(quota: nat, s: System, h: History, moves: seq<Move>, s': System, h': History)
    requires 10 <= quota
  {
    && (forall v | v in moves :: Own(v))
    && Playable(quota, s, moves) && Play(quota, s, moves) == Done(s') && SysInv(quota, s', h')
    && s'.q.p == s.q.p && h' == h.(d := h'.d)
  }

  lemma ReachesItself(quota: nat, s: System, h: History)
    requires 10 <= quota && SysInv(quota, s, h)
    ensures Reaches(quota, s, h, [], s, h)
  {
  }

  lemma {:induction false} PlayJoins(quota: nat, s: System, a: seq<Move>, b: seq<Move>)
    requires 10 <= quota && Playable(quota, s, a) && Play(quota, s, a).Done?
    requires Playable(quota, Play(quota, s, a).s, b)
    ensures Playable(quota, s, a + b) && Play(quota, s, a + b) == Play(quota, Play(quota, s, a).s, b)
    decreases |a|
  {
    hide MoveOn, Possible;
    if a == [] {
      assert a + b == b;
    } else {
      assert (a + b)[0] == a[0] && (a + b)[1..] == a[1..] + b;
      PlayJoins(quota, MoveOn(quota, s, a[0]).s, a[1..], b);
    }
  }

  lemma ReachesJoin(
    quota: nat, s: System, h: History, a: seq<Move>, s1: System, h1: History, b: seq<Move>, s2: System, h2: History)
    requires 10 <= quota && Reaches(quota, s, h, a, s1, h1) && Reaches(quota, s1, h1, b, s2, h2)
    ensures Reaches(quota, s, h, a + b, s2, h2)
  {
    hide SysInv, Playable, Play, Own;
    PlayJoins(quota, s, a, b);
  }

  /** One move of the loop. */
  lemma OneTurn(quota: nat, s: System, h: History, clock: int) returns (s': System)
    requires 10 <= quota && SysInv(quota, s, h) && Possible(s, Turn(clock))
    ensures TurnLoop(quota, s, clock) == Done(s') && Reaches(quota, s, h, [Turn(clock)], s', h)
  {
    hide SysInv, TurnLoop, Possible;
    MoveKeeps(quota, s, h, Turn(clock));
    TurnKeepsProducer(quota, s, clock);
    s' := TurnLoop(quota, s, clock).s;
    OneMove(quota, s, Turn(clock));
  }

  lemma OneMove(quota: nat, s: System, v: Move)
    requires 10 <= quota && Possible(s, v) && MoveOn(quota, s, v).Done?
    ensures Playable(quota, s, [v]) && Play(quota, s, [v]) == MoveOn(quota, s, v)
  {
    hide MoveOn, Possible;
    assert [v][1..] == [];
  }

  /** The consumer's operation returns. */
  lemma {:induction false} Finishes(quota: nat, s: System, h: History)
    returns (moves: seq<Move>, s': System, h': History)
    requires 10 <= quota && SysInv(quota, s, h) && Exact(s.q, h) && (s.loop.place.Getting? || s.loop.place.Peeking?)
    ensures Reaches(quota, s, h, moves, s', h') && |moves| <= StepsLeft(s.q.c) && s'.loop == s.loop && Exact(s'.q, h')
    ensures TakenCount(s'.q, h') == TakenCount(s.q, h)
    ensures if s.loop.place.Getting? then s'.q.c.GReturn? else s'.q.c.NReturn? && h'.d == h.d
    decreases StepsLeft(s.q.c)
  {
    hide Inv, Control, Promised, Step, Enabled, Record, LoopCounted, Exact, Playable, Play;
    if s.q.c.GReturn? || s.q.c.NReturn? {
      NothingPlayed(quota, s);
      moves, s', h' := [], s, h;
    } else {
      CanTick(s.q);
      OwnTick(s.q, h);
      var v := Queue(ConsTick);
      MoveKeeps(quota, s, h, v);
      OneMove(quota, s, v);
      var s1, h1 := MoveOn(quota, s, v).s, Record(s.q, h, ConsTick);
      QueueMoveTakes2(s.q, h);
      var rest;
      rest, s', h' := Finishes(quota, s1, h1);
      moves := [v] + rest;
      ReachesJoin(quota, s, h, [v], s1, h1, rest, s', h');
    }
  }

  lemma NothingPlayed(quota: nat, s: System)
    requires 10 <= quota
    ensures Playable(quota, s, []) && Play(quota, s, []) == Done(s)
  {
  }

  lemma CanTick(m: Machine)
    requires (InGet(m.c) || InPeek(m.c)) && !m.c.GReturn? && !m.c.NReturn?
    ensures Enabled(m, ConsTick)
  {
  }

  lemma QueueMoveTakes2(m: Machine, h: History)
    requires Inv(m, h) && Enabled(m, ConsTick)
    ensures Step(m, ConsTick).Ok?
    ensures var c, c' := m.c, Step(m, ConsTick).m.c; (InGet(c) ==> InGet(c')) && (InPeek(c) ==> InPeek(c'))
  {
    hide Live, Chain, Data, ProducerKnows;
    InvHasControl(m, h);
    StepInv(m, h, ConsTick);
    QueueMoveTakes(m, h, ConsTick);
  }

  /** The loop is about to pull, and knows exactly what is at the front of the queue. */
  ghost predicate AtFront(s: System, h: History) {
    s.loop.place.AtPull? && s.q.c.CIdle? && Ordered(h) && s.loop.next == Front(h)
  }

  /** From a peek to the pull it is for. */
  lemma PeekEnds(quota: nat, s: System, h: History) returns (moves: seq<Move>, s': System)
    requires 10 <= quota && SysInv(quota, s, h) && s.loop.place.Peeking? && s.q.c == NLoadDivider
    ensures Reaches(quota, s, h, moves, s', h) && |moves| <= 6
    ensures s'.loop == s.loop.(next := Front(h), place := AtPull) && AtFront(s', h)
  {
    hide SysInv, Inv, Control, Step, LoopCounted, Playable, Play;
    SysHas(quota, s, h);
    var a, s1, h1 := Finishes(quota, s, h);
    SysHas(quota, s1, h1);
    s' := OneTurn(quota, s1, h1, 0);
    ReachesJoin(quota, s, h, a, s1, h1, [Turn(0)], s', h1);
    CallMoves(s1.q, h1, ConsRet);
    moves := a + [Turn(0)];
  }

  lemma SysHas(quota: nat, s: System, h: History)
    requires 10 <= quota && SysInv(quota, s, h)
    ensures Inv(s.q, h) && Control(s.q, h) && Ordered(h)
    ensures |s.loop.handled| == TakenCount(s.q, h)
  {
  }

  /** The loop after it handled one more event and asked for the next. */
  ghost predicate HandledOneMore(loop: Loop, e: Event, loop': Loop) {
    && loop'.kind == loop.kind && loop'.now == loop.now && loop'.handled == loop.handled + [Handled(e, loop.now)]
    && loop'.counters.handled == (if loop.kind.Handler? then loop.counters.handled + 1 else loop.counters.handled)
  }

  /** An event that is due is pulled and handled, and the loop knows the next. */
  lemma PullsOne(quota: nat, s: System, h: History) returns (moves: seq<Move>, s': System, h': History)
    requires 10 <= quota && SysInv(quota, s, h) && AtFront(s, h) && 0 <= s.loop.next <= s.loop.now
    ensures Reaches(quota, s, h, moves, s', h') && |moves| <= 16 && AtFront(s', h')
    ensures h.d < h.l <= |h.events| && h'.d == h.d + 1 && HandledOneMore(s.loop, h.events[h.d], s'.loop)
  {
    hide SysInv, Inv, Control, Step, LoopCounted, Playable, Play, Reaches, S.Next;
    SysHas(quota, s, h);
    var s1 := OneTurn(quota, s, h, 0);
    CallMoves(s.q, h, CallGet);
    SysHas(quota, s1, h) by { ReachedInv(quota, s, h, [Turn(0)], s1, h); }
    ReachedInv(quota, s, h, [Turn(0)], s1, h);
    var a, s2, h2 := Finishes(quota, s1, h);
    ReachedInv(quota, s1, h, a, s2, h2);
    SysHas(quota, s2, h2);
    GotJob(quota, s1, h, s2, h2);
    var s3 := OneTurn(quota, s2, h2, 0);
    CallMoves(s2.q, h2, ConsRet);
    ReachedInv(quota, s2, h2, [Turn(0)], s3, h2);
    HandlesJob(quota, s2);
    var s4 := OneTurn(quota, s3, h2, 0);
    CallMoves(s3.q, h2, CallPeek);
    ReachedInv(quota, s3, h2, [Turn(0)], s4, h2);
    var b;
    b, s' := PeekEnds(quota, s4, h2);
    h' := h2;
    ReachesJoin(quota, s, h, [Turn(0)], s1, h, a, s2, h2);
    ReachesJoin(quota, s, h, [Turn(0)] + a, s2, h2, [Turn(0)], s3, h2);
    ReachesJoin(quota, s, h, [Turn(0)] + a + [Turn(0)], s3, h2, [Turn(0)], s4, h2);
    ReachesJoin(quota, s, h, [Turn(0)] + a + [Turn(0)] + [Turn(0)], s4, h2, b, s', h2);
    moves := [Turn(0)] + a + [Turn(0)] + [Turn(0)] + b;
  }

  lemma ReachedInv(quota: nat, s: System, h: History, moves: seq<Move>, s': System, h': History)
    requires 10 <= quota && Reaches(quota, s, h, moves, s', h')
    ensures SysInv(quota, s', h') && h' == h.(d := h'.d)
  {
  }

  /** What a pull that has returned was handed. */
  lemma GotJob(quota: nat, s: System, h: History, s': System, h': History)
    requires 10 <= quota && SysInv(quota, s, h) && SysInv(quota, s', h') && h' == h.(d := h'.d)
    requires s.loop.place.Getting? && s.q.c == GLoadDivider && s'.loop == s.loop && s'.q.c.GReturn?
    requires TakenCount(s'.q, h') == TakenCount(s.q, h)
    ensures h.d < h.l <= |h.events| && h'.d == h.d + 1 && s'.q.c.ok && s'.q.c.job == Some(h.events[h.d])
  {
    hide Live, Chain, Data, ProducerKnows, LoopCounted;
    GetsPromised(s'.q, h', s'.loop.next);
  }

  lemma HandlesJob(quota: nat, s: System)
    requires 10 <= quota && Possible(s, Turn(0)) && s.loop.place.Getting? && s.q.c.ok && s.q.c.job.Some?
    ensures TurnLoop(quota, s, 0).Done?
    ensures var loop' := TurnLoop(quota, s, 0).s.loop;
            loop'.place.AtPeek? && HandledOneMore(s.loop, s.q.c.job.value, loop')
  {
    S.CountersMove(quota, s.loop.counters, s.loop.totals);
  }

  /** What the first `k` events queued look like when they were handled at `now`. */
  function HandledAt(events: seq<Event>, now: int): seq<Handled> {
    seq(|events|, i requires 0 <= i < |events| => Handled(events[i], now))
  }

  ghost function Queued(h: History): seq<Event>
    requires Ordered(h)
  {
    h.events[h.d..h.l]
  }

  /** The loop `loop'` has handled `k` of the events of `queue` more than `loop`. */
  ghost predicate HandledMore(loop: Loop, queue: seq<Event>, k: nat, loop': Loop)
    requires k <= |queue|
  {
    && loop'.kind == loop.kind && loop'.now == loop.now
    && loop'.handled == loop.handled + HandledAt(queue[..k], loop.now)
    && loop'.counters.handled == loop.counters.handled + (if loop.kind.Handler? then k else 0)
  }

  lemma HandledFirst(loop: Loop, queue: seq<Event>, loop1: Loop, k: nat, loop2: Loop)
    requires queue != [] && k <= |queue| - 1
    requires HandledOneMore(loop, queue[0], loop1) && HandledMore(loop1, queue[1..], k, loop2)
    ensures HandledMore(loop, queue, k + 1, loop2)
  {
    assert queue[..k + 1] == [queue[0]] + queue[1..][..k];
    assert HandledAt(queue[..k + 1], loop.now) == [Handled(queue[0], loop.now)] + HandledAt(queue[1..][..k], loop.now);
  }

  /** All that is due is pulled, in order, before the turn ends. */
  lemma {:induction false} PullsAll(quota: nat, s: System, h: History)
    returns (moves: seq<Move>, s': System, h': History)
    requires 10 <= quota && SysInv(quota, s, h) && AtFront(s, h)
    ensures Ordered(h) && Reaches(quota, s, h, moves, s', h') && s'.loop.place.AtTurn?
    ensures var k := DueCount(Queued(h), s.loop.now);
            && |moves| <= 16 * k + 1 && h'.d == h.d + k && HandledMore(s.loop, Queued(h), k, s'.loop)
    decreases h.l - h.d
  {
    hide SysInv, Reaches, HandledMore, Playable, Play, Front;
    SysHas(quota, s, h);
    FrontIs(h);
    if 0 <= s.loop.next <= s.loop.now {
      var a, s1, h1 := PullsOne(quota, s, h);
      ReachedInv(quota, s, h, a, s1, h1);
      SysHas(quota, s1, h1);
      var b;
      b, s', h' := PullsAll(quota, s1, h1);
      ReachedInv(quota, s1, h1, b, s', h');
      ReachesJoin(quota, s, h, a, s1, h1, b, s', h');
      assert Queued(h1) == Queued(h)[1..];
      HandledFirst(s.loop, Queued(h), s1.loop, DueCount(Queued(h1), s1.loop.now), s'.loop);
      moves := a + b;
    } else {
      StopsOnlyWhenNothingIsDue(quota, s, 0);
      s' := OneTurn(quota, s, h, 0);
      StopsHere(quota, s, Queued(h));
      moves, h' := [Turn(0)], h;
    }
  }

  lemma FrontIs(h: History)
    requires Ordered(h)
    ensures var queue := Queued(h); Front(h) == if queue == [] then -1 else queue[0].time
    ensures |Queued(h)| == h.l - h.d
  {
  }

  lemma StopsHere(quota: nat, s: System, queue: seq<Event>)
    requires 10 <= quota && Possible(s, Turn(0)) && s.loop.place.AtPull?
    requires s.loop.next < 0 || s.loop.now < s.loop.next
    ensures TurnLoop(quota, s, 0).Done? && HandledMore(s.loop, queue, 0, TurnLoop(quota, s, 0).s.loop)
  {
    assert HandledAt(queue[..0], s.loop.now) == [];
  }

  /**
   A turn of either loop, begun at any time of any run: if it is left to itself it comes to its end, after a bounded
   number of its own steps, and then has handled exactly the events at the front of the queue that are due, in order,
   at the time it began. The handler's counter has gone up by as many, from zero if it was above half the quota.
   */
  lemma TurnCompletes(quota: nat, s: System, h: History, clock: int)
    returns (moves: seq<Move>, s': System, h': History)
    requires 10 <= quota && SysInv(quota, s, h) && s.loop.place.AtTurn?
    ensures Ordered(h) && Reaches(quota, s, h, moves, s', h') && s'.loop.place.AtTurn?
    ensures var k := DueCount(Queued(h), clock);
            && |moves| <= 16 * k + 8 && h'.d == h.d + k
            && s'.loop.handled == s.loop.handled + HandledAt(Queued(h)[..k], clock)
            && (s.loop.kind.Handler? ==>
                  s'.loop.counters.handled
                  == (if s.loop.counters.handled <= quota / 2 then s.loop.counters.handled else 0) + k)
  {
    hide SysInv, Inv, Control, Reaches, Playable, Play, Step, Promised;
    SysHas(quota, s, h);
    CanTurn(quota, s, h);
    var s1 := OneTurn(quota, s, h, clock);
    ReachedInv(quota, s, h, [Turn(clock)], s1, h);
    TurnBegins(quota, s, h, clock);
    var a, s2 := [Turn(clock)], s1;
    if s1.loop.place.Peeking? {
      CallMoves(s.q, h, CallPeek);
      var b;
      b, s2 := PeekEnds(quota, s1, h);
      ReachesJoin(quota, s, h, a, s1, h, b, s2, h);
      a := a + b;
    }
    ReachedInv(quota, s, h, a, s2, h);
    var c;
    c, s', h' := PullsAll(quota, s2, h);
    ReachesJoin(quota, s, h, a, s2, h, c, s', h');
    moves := a + c;
  }

  lemma CanTurn(quota: nat, s: System, h: History)
    requires 10 <= quota && SysInv(quota, s, h) && s.loop.place.AtTurn?
    ensures s.q.c.CIdle? && forall clock :: Possible(s, Turn(clock))
    ensures Ordered(h) && (s.loop.next >= 0 ==> s.loop.next == Front(h))
  {
    hide Live, Chain, Data, ProducerKnows, Marks, LoopCounted;
  }

  /** How a turn begins: with the clock, the test on the counter, and a look at the queue unless a time was kept. */
  lemma TurnBegins(quota: nat, s: System, h: History, clock: int)
    requires 10 <= quota && Possible(s, Turn(clock)) && s.loop.place.AtTurn? && s.q.c.CIdle?
    requires Ordered(h) && (s.loop.next >= 0 ==> s.loop.next == Front(h))
    ensures TurnLoop(quota, s, clock).Done?
    ensures var s' := TurnLoop(quota, s, clock).s;
            && s'.loop.kind == s.loop.kind && s'.loop.now == clock && s'.loop.handled == s.loop.handled
            && (if s.loop.kind.Server? || s.loop.next < 0 then s'.loop.place.Peeking? && s'.q.c == NLoadDivider
                else AtFront(s', h))
            && (if s.loop.kind.Handler? then
                  && s'.loop.counters.lastRequest == s.loop.counters.lastRequest
                  && s'.loop.counters.handled
                     == (if s.loop.counters.handled <= quota / 2 then s.loop.counters.handled else 0)
                else s'.loop.counters == s.loop.counters)
  {
    S.CountersMove(quota, s.loop.counters, s.loop.totals);
  }

  /**
   Every job that is due is handled: after any run that left the loop at the start of a turn and the producer between
   two operations, there are moves of the loop alone after which exactly the jobs due among those added and not yet
   handled have been handled, in order, at the time the turn began.
   */
  lemma DueJobsAreHandled(quota: nat, kind: Kind, dummy: Addr, moves: seq<Move>, clock: int) returns (more: seq<Move>)
    requires 10 <= quota && dummy != NULL && Playable(quota, NewSystem(kind, dummy), moves)
    ensures Play(quota, NewSystem(kind, dummy), moves).Done?
    ensures var s := Play(quota, NewSystem(kind, dummy), moves).s;
            s.loop.place.AtTurn? && s.q.p.PIdle? ==>
              && |s.loop.handled| <= |Fed(moves)| && (forall v | v in more :: Own(v))
              && var queue := Fed(moves)[|s.loop.handled|..];
                 var k := DueCount(queue, clock);
                 && |more| <= 16 * k + 8 && Playable(quota, s, more) && Play(quota, s, more).Done?
                 && Play(quota, s, more).s.loop.handled == s.loop.handled + HandledAt(queue[..k], clock)
  {
    hide SysInv, Pending, Reaches, Playable, Play;
    var s0, h0 := NewSystem(kind, dummy), Start(dummy);
    StartInv(quota, kind, dummy);
    PlayKeeps(quota, s0, h0, moves);
    NothingPending(kind, dummy);
    var s, h := Play(quota, s0, moves).s, Recall(quota, s0, h0, moves);
    more := [];
    if s.loop.place.AtTurn? && s.q.p.PIdle? {
      AllQueued(quota, s, h, Fed(moves));
      var s', h';
      more, s', h' := TurnCompletes(quota, s, h, clock);
      ReachesMeans(quota, s, h, more, s', h');
    }
  }

  lemma ReachesMeans(quota: nat, s: System, h: History, moves: seq<Move>, s': System, h': History)
    requires 10 <= quota && Reaches(quota, s, h, moves, s', h')
    ensures (forall v | v in moves :: Own(v)) && Playable(quota, s, moves) && Play(quota, s, moves) == Done(s')
  {
  }

  /** Between two operations of the producer, all it added and the loop has not handled is queued. */
  lemma AllQueued(quota: nat, s: System, h: History, fed: seq<Event>)
    requires 10 <= quota && SysInv(quota, s, h) && s.loop.place.AtTurn? && s.q.p.PIdle?
    requires fed == h.events + Pending(s.q)
    ensures Ordered(h) && |s.loop.handled| <= |fed| && Queued(h) == fed[|s.loop.handled|..]
  {
    hide Live, Chain, Data, ProducerKnows, LoopCounted;
  }
}
