/** What the invariant buys: linearizability, memory and race safety, progress and accounting over every run. */
module QueueRefinement {
  import opened Events
  import opened QueueMachine
  import opened QueueInvariant

  // ---- the atomic queue the two threads should appear to share ----

  /** addEvent appends and then counts what is queued; cleanUp only counts. */
  datatype AProducer = AIdle | AAdd(e: Event) | ACounting | ADone(result: int)
  datatype AConsumer = AReady | AGetting | AGot(ok: bool, job: Option<Event>) | APeeking | APeeked(time: int)
  datatype Fifo = Fifo(queue: seq<Event>, p: AProducer, c: AConsumer)

  ghost predicate Takes(s: Fifo, s': Fifo) {
    s.c == AGetting &&
    s' == if s.queue == [] then s.(c := AGot(false, None))
          else s.(queue := s.queue[1..], c := AGot(true, Some(s.queue[0])))
  }

  ghost predicate Peeks(s: Fifo, s': Fifo) {
    s.c == APeeking && s' == s.(c := APeeked(if s.queue == [] then -1 else s.queue[0].time))
  }

  ghost predicate Appends(s: Fifo, s': Fifo) {
    s.p.AAdd? && s' == s.(queue := s.queue + [s.p.e], p := ACounting)
  }

  ghost predicate Counts(s: Fifo, s': Fifo) {
    s.p.ACounting? && s' == s.(p := ADone(1 + |s.queue|))
  }

  /** Calls and returns happen as in the program; in between, each operation takes effect at one instant. */
  ghost predicate AtomicStep(s: Fifo, a: Action, s': Fifo) {
    match a
    case CallAdd(e) => s.p.AIdle? && s' == s.(p := AAdd(e))
    case CallCleanUp => s.p.AIdle? && s' == s.(p := ACounting)
    case ProdTick(_) => s' == s || Appends(s, s') || Counts(s, s')
    case ProdRet => s.p.ADone? && s' == s.(p := AIdle)
    case CallGet => s.c.AReady? && s' == s.(c := AGetting)
    case CallPeek => s.c.AReady? && s' == s.(c := APeeking)
    case ConsTick => s' == s || Takes(s, s') || Peeks(s, s')
    case ConsRet => (s.c.AGot? || s.c.APeeked?) && s' == s.(c := AReady)
  }

  ghost function AbsProducer(m: Machine, h: History): AProducer
    requires Control(m, h)
  {
    match m.p
    case PIdle => AIdle
    case PLoadLast(e) => AAdd(e)
    case PAlloc(e, _) => AAdd(e)
    case PLink(_, _) => AAdd(h.events[h.l])
    case PReadLink(_) => AAdd(h.events[h.l])
    case PPublish(_) => AAdd(h.events[h.l])
    case PReturn(n) => ADone(n)
    case _ => ACounting
  }

  ghost function AbsConsumer(m: Machine, h: History): AConsumer
    requires Control(m, h)
  {
    match m.c
    case CIdle => AReady
    case GReturn(ok, job) => AGot(ok, job)
    case NLoadDivider => APeeking
    case NLoadLast(_) => APeeking
    case NTestNext(_) => APeeked(h.events[h.d].time)
    case NReadNext(_) => APeeked(h.events[h.d].time)
    case NReadEptr(_) => APeeked(h.events[h.d].time)
    case NReturn(t) => APeeked(t)
    case _ => AGetting
  }

  ghost function Abs(m: Machine, h: History): Fifo
    requires Control(m, h)
  {
    Fifo(h.events[h.d..h.l], AbsProducer(m, h), AbsConsumer(m, h))
  }

  /** The instants at which the operations take effect, and no other step touches the queue's contents. */
  ghost predicate TakesEffect(m: Machine, a: Action, s: Fifo, s': Fifo) {
    && (a.ProdTick? && m.p.PPublish? ==> Appends(s, s'))
    && (a.ConsTick? && m.c.GStore? ==> Takes(s, s') && s.queue != [])
    && (a.ConsTick? && m.c.GLoadLast? && m.divider == m.last ==> Takes(s, s') && s.queue == [])
    && (a.ConsTick? && m.c.NLoadLast? ==> Peeks(s, s'))
    && (s'.queue != s.queue ==> (a.ProdTick? && m.p.PPublish?) || (a.ConsTick? && m.c.GStore?))
  }

  lemma ProducerEffect(m: Machine, h: History, at: Addr)
    requires Control(m, h) && Enabled(m, ProdTick(at)) && TickProducer(m, at).Ok?
    requires Control(TickProducer(m, at).m, Record(m, h, ProdTick(at)))
    requires m.p.PTest? && m.first == m.divider ==> m.numEvents == 1 + h.l - h.d
    ensures AtomicStep(Abs(m, h), ProdTick(at), Abs(TickProducer(m, at).m, Record(m, h, ProdTick(at))))
    ensures TakesEffect(m, ProdTick(at), Abs(m, h), Abs(TickProducer(m, at).m, Record(m, h, ProdTick(at))))
  {
    var h' := Record(m, h, ProdTick(at));
    if m.p.PPublish? {
      assert h.events[h.d..h.l + 1] == h.events[h.d..h.l] + [h.events[h.l]];
    } else {
      assert h'.events[h.d..h.l] == h.events[h.d..h.l];
    }
  }

  lemma ProducerSimulates(m: Machine, h: History, at: Addr)
    requires Inv(m, h) && Enabled(m, ProdTick(at))
    ensures Step(m, ProdTick(at)).Ok? && Inv(Step(m, ProdTick(at)).m, Record(m, h, ProdTick(at)))
    ensures AtomicStep(Abs(m, h), ProdTick(at), Abs(Step(m, ProdTick(at)).m, Record(m, h, ProdTick(at))))
    ensures TakesEffect(m, ProdTick(at), Abs(m, h), Abs(Step(m, ProdTick(at)).m, Record(m, h, ProdTick(at))))
  {
    ProducerTickInv(m, h, at);
    if m.p.PTest? && m.first == m.divider {
      assert h.f == h.d;
    }
    ProducerEffect(m, h, at);
  }

  lemma ConsumerEffect(m: Machine, h: History)
    requires Control(m, h) && Enabled(m, ConsTick) && TickConsumer(m).Ok?
    requires Control(TickConsumer(m).m, Record(m, h, ConsTick))
    requires m.divider == m.last <==> h.d == h.l
    requires m.divider in m.heap && (h.d < h.l ==> m.heap[m.divider].next != NULL)
    requires m.c.NReadEptr? ==> TickConsumer(m).m.c == NReturn(h.events[h.d].time)
    ensures AtomicStep(Abs(m, h), ConsTick, Abs(TickConsumer(m).m, Record(m, h, ConsTick)))
    ensures TakesEffect(m, ConsTick, Abs(m, h), Abs(TickConsumer(m).m, Record(m, h, ConsTick)))
  {
    if m.c.GStore? {
      assert h.events[h.d..h.l] == [h.events[h.d]] + h.events[h.d + 1..h.l];
    }
  }

  lemma ConsumerSimulates(m: Machine, h: History)
    requires Inv(m, h) && Enabled(m, ConsTick)
    ensures Step(m, ConsTick).Ok? && Inv(Step(m, ConsTick).m, Record(m, h, ConsTick))
    ensures AtomicStep(Abs(m, h), ConsTick, Abs(Step(m, ConsTick).m, Record(m, h, ConsTick)))
    ensures TakesEffect(m, ConsTick, Abs(m, h), Abs(Step(m, ConsTick).m, Record(m, h, ConsTick)))
  {
    ConsumerTickInv(m, h);
    DividerIsNotLast(m, h);
    ConsumerEffect(m, h);
  }

  /**
   The interleaved queue is linearizable: each of its steps is a step of the atomic queue or changes nothing there.
   addEvent takes effect at last.store, a successful getEvent at divider.store, and a failed getEvent and
   nextEventTime when they load last; cleanUp changes nothing.
   */
  lemma StepRefinesFifo(m: Machine, h: History, a: Action)
    requires Inv(m, h) && Enabled(m, a)
    ensures Step(m, a).Ok? && Inv(Step(m, a).m, Record(m, h, a))
    ensures AtomicStep(Abs(m, h), a, Abs(Step(m, a).m, Record(m, h, a)))
    ensures TakesEffect(m, a, Abs(m, h), Abs(Step(m, a).m, Record(m, h, a)))
  {
    hide Live, Chain, Data, TickProducer, TickConsumer, Takes, Peeks, Appends, Counts;
    match a
    case ProdTick(at) => ProducerSimulates(m, h, at);
    case ConsTick => ConsumerSimulates(m, h);
    case _ => StepInv(m, h, a);
  }

  // ---- whole runs ----

  /** Every action of the schedule is enabled when its turn comes. */
  predicate Legal(m: Machine, acts: seq<Action>)
    decreases |acts|
  {
    acts == [] ||
    (Enabled(m, acts[0]) && (Step(m, acts[0]).Ok? ==> Legal(Step(m, acts[0]).m, acts[1..])))
  }

  function Exec(m: Machine, acts: seq<Action>): Outcome
    decreases |acts|
  {
    if acts == [] then Ok(m)
    else if Step(m, acts[0]).Fault? then Fault
    else Exec(Step(m, acts[0]).m, acts[1..])
  }

  function Track(m: Machine, h: History, acts: seq<Action>): History
    decreases |acts|
  {
    if acts == [] || Step(m, acts[0]).Fault? then h
    else Track(Step(m, acts[0]).m, Record(m, h, acts[0]), acts[1..])
  }

  /** The events passed to addEvent, in call order. */
  function Added(acts: seq<Action>): seq<Event> {
    if acts == [] then []
    else (if acts[0].CallAdd? then [acts[0].e] else []) + Added(acts[1..])
  }

  /** The jobs handed out by the getEvent calls that returned true, in return order. */
  function Delivered(m: Machine, acts: seq<Action>): seq<Option<Event>>
    decreases |acts|
  {
    if acts == [] || Step(m, acts[0]).Fault? then []
    else (if acts[0].ConsRet? && m.c.GReturn? && m.c.ok then [m.c.job] else [])
         + Delivered(Step(m, acts[0]).m, acts[1..])
  }

  function Allocations(m: Machine, acts: seq<Action>): nat
    decreases |acts|
  {
    if acts == [] || Step(m, acts[0]).Fault? then 0
    else (if acts[0].ProdTick? && m.p.PAlloc? then 1 else 0) + Allocations(Step(m, acts[0]).m, acts[1..])
  }

  function Frees(m: Machine, acts: seq<Action>): nat
    decreases |acts|
  {
    if acts == [] || Step(m, acts[0]).Fault? then 0
    else (if acts[0].ProdTick? && m.p.PDelete? then 1 else 0) + Frees(Step(m, acts[0]).m, acts[1..])
  }

  function Pending(m: Machine): seq<Event> {
    if m.p.PLoadLast? || m.p.PAlloc? then [m.p.e] else []
  }

  ghost function Wrapped(s: seq<Event>): seq<Option<Event>> { seq(|s|, i requires 0 <= i < |s| => Some(s[i])) }

  /** What the consumer has been handed: all taken events but one whose getEvent has not returned yet. */
  ghost function Consumed(m: Machine, h: History): seq<Option<Event>>
    requires Control(m, h)
  {
    Wrapped(h.events[..if m.c.GReturn? && m.c.ok then h.d - 1 else h.d])
  }

  lemma StepAdds(m: Machine, h: History, a: Action)
    requires Enabled(m, a) && Step(m, a).Ok?
    ensures Record(m, h, a).events + Pending(Step(m, a).m) == h.events + Pending(m) + Added([a])
  {
  }

  lemma StepCounts(m: Machine, a: Action)
    requires Enabled(m, a) && Step(m, a).Ok?
    ensures |Step(m, a).m.heap| == |m.heap| + Allocations(m, [a]) - Frees(m, [a])
  {
    if a.ProdTick? && m.p.PDelete? {
      assert (m.heap - {m.p.tmp}).Keys == m.heap.Keys - {m.p.tmp};
    }
  }

  lemma ProducerLeavesConsumer(m: Machine, h: History, at: Addr)
    requires Enabled(m, ProdTick(at)) && TickProducer(m, at).Ok?
    ensures TickProducer(m, at).m.c == m.c
    ensures Record(m, h, ProdTick(at)).d == h.d && h.events <= Record(m, h, ProdTick(at)).events
  {
  }

  lemma StepDelivers(m: Machine, h: History, a: Action)
    requires Control(m, h) && Enabled(m, a) && Step(m, a).Ok?
    requires Control(Step(m, a).m, Record(m, h, a))
    ensures Consumed(Step(m, a).m, Record(m, h, a)) == Consumed(m, h) + Delivered(m, [a])
  {
    hide AbsProducer, AbsConsumer, TickProducer;
    if a.ProdTick? {
      ProducerLeavesConsumer(m, h, a.at);
    }
    var s := Step(m, a).m;
    assert [a][1..] == [];
    assert Delivered(m, [a]) == if a.ConsRet? && m.c.GReturn? && m.c.ok then [m.c.job] else [];
  }

  /** The run meets no fault, and the marks of the history fit every state it passes through. */
  ghost predicate Controlled(m: Machine, h: History, acts: seq<Action>)
    decreases |acts|
  {
    && Control(m, h)
    && (acts != [] ==>
          Step(m, acts[0]).Ok? && Controlled(Step(m, acts[0]).m, Record(m, h, acts[0]), acts[1..]))
  }

  lemma {:induction false} RunInv(m: Machine, h: History, acts: seq<Action>)
    requires Inv(m, h) && Legal(m, acts)
    ensures Exec(m, acts).Ok? && Inv(Exec(m, acts).m, Track(m, h, acts))
    ensures Controlled(m, h, acts)
    decreases |acts|
  {
    hide Live, Chain, Data, ProducerKnows, ConsumerKnows, Marks, Enabled, Record, Step;
    if acts == [] {
    } else {
      StepInv(m, h, acts[0]);
      RunInv(Step(m, acts[0]).m, Record(m, h, acts[0]), acts[1..]);
    }
  }

  lemma {:induction false} RunAdds(m: Machine, h: History, acts: seq<Action>)
    requires Legal(m, acts) && Exec(m, acts).Ok?
    ensures Track(m, h, acts).events + Pending(Exec(m, acts).m) == h.events + Pending(m) + Added(acts)
    decreases |acts|
  {
    hide Step, Record, Enabled, Pending;
    if acts == [] {
    } else {
      var m', h' := Step(m, acts[0]).m, Record(m, h, acts[0]);
      StepAdds(m, h, acts[0]);
      RunAdds(m', h', acts[1..]);
      AddedSplits(acts);
      var a, b, c := h.events + Pending(m), Added([acts[0]]), Added(acts[1..]);
      assert a + b + c == a + (b + c);
    }
  }

  lemma AddedSplits(acts: seq<Action>)
    requires acts != []
    ensures Added(acts) == Added([acts[0]]) + Added(acts[1..])
  {
    assert [acts[0]][1..] == [];
  }

  lemma {:induction false} RunCounts(m: Machine, acts: seq<Action>)
    requires Legal(m, acts) && Exec(m, acts).Ok?
    ensures |Exec(m, acts).m.heap| == |m.heap| + Allocations(m, acts) - Frees(m, acts)
    decreases |acts|
  {
    if acts == [] {
    } else {
      StepCounts(m, acts[0]);
      RunCounts(Step(m, acts[0]).m, acts[1..]);
    }
  }

  lemma {:induction false} RunDelivers(m: Machine, h: History, acts: seq<Action>)
    requires Controlled(m, h, acts) && Legal(m, acts)
    ensures Exec(m, acts).Ok? && Control(Exec(m, acts).m, Track(m, h, acts))
    ensures Consumed(Exec(m, acts).m, Track(m, h, acts)) == Consumed(m, h) + Delivered(m, acts)
    decreases |acts|
  {
    hide Control, Consumed, Enabled, Record;
    if acts == [] {
    } else {
      StepDelivers(m, h, acts[0]);
      RunDelivers(Step(m, acts[0]).m, Record(m, h, acts[0]), acts[1..]);
      assert Delivered(m, acts) == Delivered(m, [acts[0]]) + Delivered(Step(m, acts[0]).m, acts[1..]);
    }
  }

  /**
   Every run of the interleaved queue is a run of the atomic one: the states it passes through, as the atomic queue sees
   them, follow each other by atomic steps.
   */
  lemma {:induction false} RunRefinesFifo(m: Machine, h: History, acts: seq<Action>) returns (trace: seq<Fifo>)
    requires Inv(m, h) && Legal(m, acts)
    ensures Exec(m, acts).Ok? && Control(Exec(m, acts).m, Track(m, h, acts))
    ensures |trace| == |acts| + 1 && trace[0] == Abs(m, h) && trace[|acts|] == Abs(Exec(m, acts).m, Track(m, h, acts))
    ensures forall i | 0 <= i < |acts| :: AtomicStep(trace[i], acts[i], trace[i + 1])
    decreases |acts|
  {
    hide Live, Chain, Data, ProducerKnows, ConsumerKnows, Marks, Enabled, Record, Step, Abs, AtomicStep, TakesEffect;
    if acts == [] {
      trace := [Abs(m, h)];
    } else {
      StepRefinesFifo(m, h, acts[0]);
      var rest := RunRefinesFifo(Step(m, acts[0]).m, Record(m, h, acts[0]), acts[1..]);
      trace := [Abs(m, h)] + rest;
      forall i | 0 <= i < |acts| ensures AtomicStep(trace[i], acts[i], trace[i + 1]) {
        if 0 < i {
          assert AtomicStep(rest[i - 1], acts[1..][i - 1], rest[i]);
        }
      }
    }
  }

  lemma EveryRunIsControlled(dummy: Addr, acts: seq<Action>)
    requires dummy != NULL && Legal(Init(dummy), acts)
    ensures Controlled(Init(dummy), Start(dummy), acts)
  {
    InitInv(dummy);
    RunInv(Init(dummy), Start(dummy), acts);
  }

  /** No schedule reaches a dangling or null dereference or a double free. */
  lemma RunsAreSafe(dummy: Addr, acts: seq<Action>)
    requires dummy != NULL && Legal(Init(dummy), acts)
    ensures Exec(Init(dummy), acts).Ok?
    ensures Inv(Exec(Init(dummy), acts).m, Track(Init(dummy), Start(dummy), acts))
  {
    InitInv(dummy);
    RunInv(Init(dummy), Start(dummy), acts);
  }

  /**
   First in, first out, over every interleaving: the events getEvent handed out are a prefix of the events passed to
   addEvent, so none is lost, duplicated or reordered.
   */
  lemma DeliveredIsPrefixOfAdded(dummy: Addr, acts: seq<Action>)
    requires dummy != NULL && Legal(Init(dummy), acts)
    ensures Delivered(Init(dummy), acts) <= Wrapped(Added(acts))
  {
    EveryRunIsControlled(dummy, acts);
    RunDelivers(Init(dummy), Start(dummy), acts);
    RunAdds(Init(dummy), Start(dummy), acts);
    var m, h := Exec(Init(dummy), acts).m, Track(Init(dummy), Start(dummy), acts);
    assert Consumed(m, h) == Delivered(Init(dummy), acts);
    assert Added(acts) == h.events + Pending(m);
  }

  /** Between producer operations numEvents is the number of nodes allocated and not yet freed. */
  lemma NumEventsCountsLiveNodes(dummy: Addr, acts: seq<Action>)
    requires dummy != NULL && Legal(Init(dummy), acts)
    ensures var end := Exec(Init(dummy), acts);
            && end.Ok?
            && (end.m.p.PIdle? ==>
                  end.m.numEvents == |end.m.heap|
                  == 1 + Allocations(Init(dummy), acts) - Frees(Init(dummy), acts))
  {
    InitInv(dummy);
    RunInv(Init(dummy), Start(dummy), acts);
    RunCounts(Init(dummy), acts);
  }

  // ---- races ----

  /** No two plain accesses to one field, of which one writes, are ever both about to happen. */
  lemma NoDataRace(m: Machine, h: History, at: Addr)
    requires Inv(m, h) && Enabled(m, ProdTick(at))
    ensures !DataRace(m, at)
  {
    forall x, y | x in ProducerAccesses(m, at) && y in ConsumerAccesses(m) ensures !Conflict(x, y) {
      DividerIsNotLast(m, h);
    }
  }

  /** No run reaches a state in which the threads race, wherever the allocator puts the next node. */
  lemma RunsAreRaceFree(dummy: Addr, acts: seq<Action>, at: Addr)
    requires dummy != NULL && Legal(Init(dummy), acts)
    ensures var end := Exec(Init(dummy), acts);
            end.Ok? && (Enabled(end.m, ProdTick(at)) ==> !DataRace(end.m, at))
  {
    RunsAreSafe(dummy, acts);
    var end := Exec(Init(dummy), acts);
    if Enabled(end.m, ProdTick(at)) {
      NoDataRace(end.m, Track(Init(dummy), Start(dummy), acts), at);
    }
  }

  /** So once divider != last was seen, the tests for a null next always succeed. */
  lemma NextTestsSucceed(m: Machine, h: History)
    requires Inv(m, h) && (m.c.GTestNext? || m.c.NTestNext?)
    ensures Step(m, ConsTick).Ok?
    ensures var c' := Step(m, ConsTick).m.c; c'.GReadNext? || c'.NReadNext?
  {
    DividerIsNotLast(m, h);
  }

  // ---- progress ----

  /** An upper bound on the producer's steps until its operation returns. */
  function Rank(m: Machine, h: History): int {
    var left := 5 * (h.l - h.f);
    match m.p
    case PIdle => 0
    case PLoadLast(_) => left + 12
    case PAlloc(_, _) => left + 11
    case PLink(_, _) => left + 10
    case PReadLink(_) => left + 9
    case PPublish(_) => left + 8
    case PCount => left + 2
    case PTest => left + 1
    case PAdvance(_) => left
    case PReset(_) => left + 4
    case PDelete(_) => left + 3
    case PUncount => left + 2
    case PReturn(_) => 0
  }

  lemma RankDecreases(m: Machine, h: History, a: Action)
    requires Control(m, h) && Enabled(m, a) && (a.ProdTick? || !ProducerAction(a)) && Step(m, a).Ok?
    requires m.p.PAdvance? ==> h.f < h.d
    requires Control(Step(m, a).m, Record(m, h, a))
    ensures var r' := Rank(Step(m, a).m, Record(m, h, a));
            if a.ProdTick? then 0 <= r' < Rank(m, h) else r' == Rank(m, h)
  {
    hide ConsumerKnows;
    if a.ProdTick? {
      TickLowersRank(m, h, a.at);
    } else {
      ProducerWaits(m, h, a);
    }
  }

  lemma TickLowersRank(m: Machine, h: History, at: Addr)
    requires Control(m, h) && Enabled(m, ProdTick(at)) && TickProducer(m, at).Ok?
    requires m.p.PAdvance? ==> h.f < h.d
    ensures 0 <= Rank(TickProducer(m, at).m, Record(m, h, ProdTick(at))) < Rank(m, h)
  {
    hide ConsumerKnows;
    if m.p.PTest? && m.first != m.divider {
      assert h.f < h.d;
    }
  }

  lemma ProducerWaits(m: Machine, h: History, a: Action)
    requires Enabled(m, a) && !ProducerAction(a) && Step(m, a).Ok?
    ensures Step(m, a).m.p == m.p && Record(m, h, a).f == h.f && Record(m, h, a).l == h.l
  {
  }

  /**
   addEvent and cleanUp are wait-free: every producer step brings the return closer, and nothing the consumer does,
   in particular advancing the divider while cleanUp chases it, puts it further away.
   */
  lemma ProducerProgress(m: Machine, h: History, a: Action)
    requires Inv(m, h) && Enabled(m, a) && (a.ProdTick? || !ProducerAction(a))
    ensures Step(m, a).Ok?
    ensures var r' := Rank(Step(m, a).m, Record(m, h, a));
            if a.ProdTick? then 0 <= r' < Rank(m, h) else r' == Rank(m, h)
  {
    StepInv(m, h, a);
    RankDecreases(m, h, a);
  }

  lemma {:induction false} SomeUnused(heap: map<Addr, Node>, below: Addr) returns (at: Addr)
    requires forall n | n in heap :: n == NULL || below <= n
    requires 0 < below
    ensures below <= at && at !in heap
    decreases |heap.Keys - {NULL}|
  {
    if below !in heap {
      at := below;
    } else {
      var rest := heap - {below};
      assert rest.Keys == heap.Keys - {below};
      assert rest.Keys - {NULL} == (heap.Keys - {NULL}) - {below};
      at := SomeUnused(rest, below + 1);
    }
  }

  /** An operation of the producer that is left to itself returns, within its rank of steps. */
  lemma {:induction false} ProducerFinishes(m: Machine, h: History) returns (acts: seq<Action>)
    requires Inv(m, h) && !m.p.PIdle?
    ensures |acts| <= Rank(m, h) && (forall a | a in acts :: a.ProdTick?)
    ensures Legal(m, acts) && Exec(m, acts).Ok? && Exec(m, acts).m.p.PReturn? && Exec(m, acts).m.c == m.c
    decreases Rank(m, h)
  {
    hide Inv, Record, Rank;
    RankNonnegative(m, h);
    if m.p.PReturn? {
      acts := [];
    } else {
      var at := SomeUnused(m.heap, 1);
      var a := ProdTick(at);
      StepInv(m, h, a);
      ProducerProgress(m, h, a);
      TickKeepsConsumer(m, at);
      var rest := ProducerFinishes(Step(m, a).m, Record(m, h, a));
      acts := [a] + rest;
    }
  }

  lemma RankNonnegative(m: Machine, h: History)
    requires Inv(m, h)
    ensures 0 <= Rank(m, h)
  {
  }

  lemma TickKeepsConsumer(m: Machine, at: Addr)
    requires Enabled(m, ProdTick(at)) && TickProducer(m, at).Ok?
    ensures TickProducer(m, at).m.c == m.c && !TickProducer(m, at).m.p.PIdle?
  {
  }

  /** cleanUp returns one more than the number of events that were undelivered when it last loaded divider. */
  lemma CleanUpResult(m: Machine, h: History, at: Addr)
    requires Inv(m, h) && m.p.PTest?
    requires TickProducer(m, at).Ok? && TickProducer(m, at).m.p.PReturn?
    ensures TickProducer(m, at).m.p.result == 1 + |Abs(m, h).queue|
    ensures h.f == h.d
  {
  }

  // ---- peek stability ----

  /** The consumer has seen time `t` and not taken the event yet, or has just taken it. */
  ghost predicate Promised(m: Machine, h: History, t: int)
    requires Control(m, h)
  {
    match m.c
    case NReturn(u) => u == t && 0 <= t
    case GReturn(ok, job) => ok && h.events[h.d - 1].time == t
    case NLoadDivider => false
    case NLoadLast(_) => false
    case NTestNext(_) => false
    case NReadNext(_) => false
    case NReadEptr(_) => false
    case _ => h.d < h.l && h.events[h.d].time == t
  }

  lemma PromiseKept(m: Machine, h: History, t: int, a: Action)
    requires Control(m, h) && Enabled(m, a) && Promised(m, h, t)
    requires a != CallPeek && (a == ConsRet ==> m.c.NReturn?)
    requires Step(m, a).Ok? && Control(Step(m, a).m, Record(m, h, a))
    requires m.divider == m.last <==> h.d == h.l
    requires m.divider in m.heap && (h.d < h.l ==> m.heap[m.divider].next != NULL)
    ensures Promised(Step(m, a).m, Record(m, h, a), t)
    ensures m.c.NReturn? && a != ConsRet <==> Step(m, a).m.c.NReturn?
  {
  }

  lemma PromiseStep(m: Machine, h: History, t: int, a: Action)
    requires Inv(m, h) && Enabled(m, a) && Promised(m, h, t)
    requires a != CallPeek && (a == ConsRet ==> m.c.NReturn?)
    ensures Step(m, a).Ok? && Inv(Step(m, a).m, Record(m, h, a))
    ensures Promised(Step(m, a).m, Record(m, h, a), t)
    ensures m.c.NReturn? && a != ConsRet <==> Step(m, a).m.c.NReturn?
  {
    StepInv(m, h, a);
    DividerIsNotLast(m, h);
    PromiseKept(m, h, t, a);
  }

  /**
   If nextEventTime returned t >= 0, the consumer's next getEvent returns an event with that time, whatever the
   producer does in between. (The one ConsRet is the return of nextEventTime itself.)
   */
  lemma {:induction false} PeekIsStable(m: Machine, h: History, t: int, acts: seq<Action>)
    requires Inv(m, h) && Promised(m, h, t) && Legal(m, acts)
    requires CallPeek !in acts && multiset(acts)[ConsRet] <= (if m.c.NReturn? then 1 else 0)
    ensures Exec(m, acts).Ok?
    ensures var c' := Exec(m, acts).m.c;
            c'.GReturn? ==> c'.ok && c'.job.Some? && c'.job.value.time == t
    decreases |acts|
  {
    if acts == [] {
    } else {
      var rest := acts[1..];
      assert acts == [acts[0]] + rest;
      PromiseStep(m, h, t, acts[0]);
      var m', h' := Step(m, acts[0]).m, Record(m, h, acts[0]);
      PeekIsStable(m', h', t, rest);
    }
  }

  // ---- destruction ----

  lemma {:induction false} DestroyChain(heap: map<Addr, Node>, s: seq<Addr>)
    requires |heap| == |s|
    requires forall i | 0 <= i < |s| :: s[i] in heap && s[i] != NULL
    requires forall i, j | 0 <= i < j < |s| :: s[i] != s[j]
    requires forall i | 0 <= i < |s| - 1 :: heap[s[i]].next == s[i + 1]
    requires s != [] ==> heap[s[|s| - 1]].next == NULL
    ensures Destroy(heap, if s == [] then NULL else s[0]) == Destroyed(map[], s)
    decreases |s|
  {
    if s == [] {
      assert heap == map[];
    } else {
      var rest := heap - {s[0]};
      assert rest.Keys == heap.Keys - {s[0]};
      DestroyChain(rest, s[1..]);
      assert [s[0]] + s[1..] == s;
    }
  }

  /**
   Running the destructor after both threads stopped frees every node that is still allocated, each once, so that
   over the whole life of the queue frees balance allocations (the dummy of the constructor included).
   */
  lemma DestructorFreesEveryNodeOnce(dummy: Addr, acts: seq<Action>)
    requires dummy != NULL && Legal(Init(dummy), acts)
    ensures var end := Exec(Init(dummy), acts);
            && end.Ok?
            && (end.m.p.PIdle? ==>
                  var d := Destroy(end.m.heap, end.m.first);
                  && d.Destroyed? && d.heap == map[]
                  && |d.freed| + Frees(Init(dummy), acts) == 1 + Allocations(Init(dummy), acts)
                  && (forall i, j | 0 <= i < j < |d.freed| :: d.freed[i] != d.freed[j]))
  {
    hide Data, ConsumerKnows, Allocations, Frees, Legal, Enabled, Step;
    InitInv(dummy);
    RunInv(Init(dummy), Start(dummy), acts);
    RunCounts(Init(dummy), acts);
    var m, h := Exec(Init(dummy), acts).m, Track(Init(dummy), Start(dummy), acts);
    if m.p.PIdle? {
      DestroyChain(m.heap, h.nodes[h.f..]);
    }
  }
}
