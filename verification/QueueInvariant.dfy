/**
 Why the lock-free queue works. `History` is auxiliary: it lists every node ever allocated in order, the event put in
 each, and how far first, divider and last have moved along that list. No step of the machine reads it.
 */
module QueueInvariant {
  import opened Events
  import opened QueueMachine

  /** nodes[0] is the dummy; nodes[i] carries events[i-1]. first, divider and last point at nodes f <= d <= l. */
  datatype History = History(nodes: seq<Addr>, events: seq<Event>, f: nat, d: nat, l: nat)

  function Start(dummy: Addr): History {
    History([dummy], [], 0, 0, 0)
  }

  /** The history after an enabled action: an allocation extends it, the three pointer moves advance the marks. */
  function Record(m: Machine, h: History, a: Action): History {
    match a
    case ProdTick(at) =>
      (match m.p
       case PAlloc(e, _) => h.(nodes := h.nodes + [at], events := h.events + [e])
       case PPublish(_) => h.(l := h.l + 1)
       case PAdvance(_) => h.(f := h.f + 1)
       case _ => h)
    case ConsTick => if m.c.GStore? then h.(d := h.d + 1) else h
    case _ => h
  }

  /** The node being reset or deleted is no longer reachable from first, but still allocated. */
  predicate Retiring(m: Machine) { m.p.PReset? || m.p.PDelete? }

  /** A node that is allocated and not yet published. */
  predicate Unpublished(m: Machine) { m.p.PLink? || m.p.PReadLink? || m.p.PPublish? }

  predicate Linked(m: Machine) { m.p.PReadLink? || m.p.PPublish? }

  /** Index of the oldest node still allocated. */
  function Low(m: Machine, h: History): int {
    if Retiring(m) then h.f - 1 else h.f
  }

  ghost predicate Ordered(h: History) {
    h.f <= h.d <= h.l < |h.nodes| == |h.events| + 1 && |h.nodes| <= h.l + 2
  }

  ghost predicate Marks(m: Machine, h: History)
    requires Ordered(h)
  {
    && 0 <= Low(m, h)
    && |h.nodes| == h.l + (if Unpublished(m) then 2 else 1)
    && m.first == h.nodes[h.f] && m.divider == h.nodes[h.d] && m.last == h.nodes[h.l]
  }

  /** Exactly the nodes from index `low` on are allocated, at pairwise different addresses. */
  ghost predicate Live(heap: map<Addr, Node>, nodes: seq<Addr>, low: nat)
    requires low <= |nodes|
  {
    && (forall i | low <= i < |nodes| :: nodes[i] in heap && nodes[i] != NULL)
    && (forall i, j | low <= i < j < |nodes| :: nodes[i] != nodes[j])
    && |heap| == |nodes| - low
  }

  /** From first, next leads through divider to last; the chain ends at last, or at the node linked behind it. */
  ghost predicate Chain(heap: map<Addr, Node>, nodes: seq<Addr>, f: nat, l: nat, linked: bool)
    requires f <= l < |nodes| && (linked ==> l + 1 < |nodes|)
  {
    && (forall i | f <= i < l :: nodes[i] in heap && heap[nodes[i]].next == nodes[i + 1])
    && nodes[l] in heap && heap[nodes[l]].next == (if linked then nodes[l + 1] else NULL)
    && (l + 1 < |nodes| ==> nodes[l + 1] in heap && heap[nodes[l + 1]].next == NULL)
  }

  /** Every node reachable from first holds its event; only the original dummy never held one. */
  ghost predicate Data(heap: map<Addr, Node>, nodes: seq<Addr>, events: seq<Event>, f: nat)
    requires f < |nodes| == |events| + 1
  {
    forall i | f <= i < |nodes| && 0 < i :: nodes[i] in heap && heap[nodes[i]].eptr == Some(events[i - 1])
  }

  ghost predicate ProducerKnows(m: Machine, h: History)
    requires Ordered(h) && Marks(m, h)
  {
    && m.numEvents == |m.heap| + (if Unpublished(m) || m.p.PCount? then -1 else if m.p.PUncount? then 1 else 0)
    && match m.p
       case PAlloc(_, lastNode) => lastNode == m.last
       case PLink(lastNode, node) => lastNode == m.last && node == h.nodes[h.l + 1]
       case PReadLink(lastNode) => lastNode == m.last
       case PPublish(node) => node == h.nodes[h.l + 1]
       case PAdvance(tmp) => tmp == m.first && h.f < h.d
       case PReset(tmp) => tmp == h.nodes[h.f - 1]
       case PDelete(tmp) => tmp == h.nodes[h.f - 1]
       case _ => true
  }

  /** What the consumer's locals hold; an event is undelivered (d < l) from the moment divider != last was seen. */
  ghost predicate ConsumerKnows(m: Machine, h: History)
    requires Ordered(h)
  {
    match m.c
    case GLoadLast(dn) => dn == m.divider
    case GTestNext(dn) => dn == m.divider && h.d < h.l
    case GReadNext(dn) => dn == m.divider && h.d < h.l
    case GReadEptr(dn, node) => dn == m.divider && h.d < h.l && node == h.nodes[h.d + 1]
    case GReread(dn, job) => dn == m.divider && h.d < h.l && job == Some(h.events[h.d])
    case GStore(node, job) => h.d < h.l && node == h.nodes[h.d + 1] && job == Some(h.events[h.d])
    case GReturn(ok, job) => ok ==> 0 < h.d && job == Some(h.events[h.d - 1])
    case NLoadLast(dn) => dn == m.divider
    case NTestNext(dn) => dn == m.divider && h.d < h.l
    case NReadNext(dn) => dn == m.divider && h.d < h.l
    case NReadEptr(node) => h.d < h.l && node == h.nodes[h.d + 1]
    case NReturn(t) => t == -1 || (h.d < h.l && t == h.events[h.d].time)
    case _ => true
  }

  /** The part of the invariant that does not look into the heap. */
  ghost predicate Control(m: Machine, h: History) {
    && Ordered(h)
    && Marks(m, h)
    && ConsumerKnows(m, h)
  }

  ghost predicate Inv(m: Machine, h: History) {
    && Control(m, h)
    && Live(m.heap, h.nodes, Low(m, h))
    && Chain(m.heap, h.nodes, h.f, h.l, Linked(m))
    && Data(m.heap, h.nodes, h.events, h.f)
    && ProducerKnows(m, h)
  }

  lemma InitInv(dummy: Addr)
    requires dummy != NULL
    ensures Inv(Init(dummy), Start(dummy))
  {
  }

  /** What the consumer knows survives every step that leaves divider alone and at most extends the history. */
  lemma ConsumerStillKnows(m: Machine, h: History, m': Machine, h': History)
    requires Ordered(h) && Ordered(h') && ConsumerKnows(m, h)
    requires m'.c == m.c && m'.divider == m.divider && h'.d == h.d && h.l <= h'.l
    requires h.nodes <= h'.nodes && h.events <= h'.events
    ensures ConsumerKnows(m', h')
  {
  }

  /** The heap with a new node that nothing points to yet. */
  lemma AllocHeap(
    heap: map<Addr, Node>, nodes: seq<Addr>, events: seq<Event>, low: nat, f: nat, l: nat, at: Addr, e: Event)
    requires low <= f <= l && l + 1 == |nodes| == |events| + 1 && at != NULL && at !in heap
    requires Live(heap, nodes, low) && Chain(heap, nodes, f, l, false) && Data(heap, nodes, events, f)
    ensures var heap' := heap[at := Node(Some(e), NULL)];
            && Live(heap', nodes + [at], low) && Chain(heap', nodes + [at], f, l, false)
            && Data(heap', nodes + [at], events + [e], f)
  {
  }

  /** The heap after the node behind the last one has been linked to it. */
  lemma LinkHeap(heap: map<Addr, Node>, nodes: seq<Addr>, events: seq<Event>, low: nat, f: nat, l: nat)
    requires low <= f <= l && l + 2 == |nodes| == |events| + 1
    requires Live(heap, nodes, low) && Chain(heap, nodes, f, l, false) && Data(heap, nodes, events, f)
    ensures nodes[l] in heap
    ensures var heap' := heap[nodes[l] := heap[nodes[l]].(next := nodes[l + 1])];
            Live(heap', nodes, low) && Chain(heap', nodes, f, l, true) && Data(heap', nodes, events, f)
  {
  }

  lemma AllocInv(m: Machine, h: History, at: Addr)
    requires Inv(m, h) && m.p.PAlloc? && Enabled(m, ProdTick(at))
    ensures Inv(TickProducer(m, at).m, Record(m, h, ProdTick(at)))
  {
    hide ConsumerKnows, Live, Chain, Data;
    ConsumerStillKnows(m, h, TickProducer(m, at).m, Record(m, h, ProdTick(at)));
    AllocHeap(m.heap, h.nodes, h.events, h.f, h.f, h.l, at, m.p.e);
    assert |TickProducer(m, at).m.heap| == |m.heap| + 1;
  }

  lemma LinkInv(m: Machine, h: History, at: Addr)
    requires Inv(m, h) && m.p.PLink?
    ensures TickProducer(m, at).Ok? && Inv(TickProducer(m, at).m, h)
  {
    hide ConsumerKnows, Live, Chain, Data;
    LinkHeap(m.heap, h.nodes, h.events, h.f, h.f, h.l);
    ConsumerStillKnows(m, h, TickProducer(m, at).m, h);
  }

  lemma PublishInv(m: Machine, h: History, at: Addr)
    requires Inv(m, h) && m.p.PPublish?
    ensures Inv(TickProducer(m, at).m, Record(m, h, ProdTick(at)))
  {
    hide ConsumerKnows, Live, Data;
    ConsumerStillKnows(m, h, TickProducer(m, at).m, Record(m, h, ProdTick(at)));
  }

  lemma AdvanceInv(m: Machine, h: History, at: Addr)
    requires Inv(m, h) && m.p.PAdvance?
    ensures TickProducer(m, at).Ok? && Inv(TickProducer(m, at).m, Record(m, h, ProdTick(at)))
  {
    hide ConsumerKnows;
    ConsumerStillKnows(m, h, TickProducer(m, at).m, Record(m, h, ProdTick(at)));
  }

  lemma ResetInv(m: Machine, h: History, at: Addr)
    requires Inv(m, h) && m.p.PReset?
    ensures TickProducer(m, at).Ok? && Inv(TickProducer(m, at).m, h)
  {
    hide ConsumerKnows;
    ConsumerStillKnows(m, h, TickProducer(m, at).m, h);
  }

  lemma DeleteInv(m: Machine, h: History, at: Addr)
    requires Inv(m, h) && m.p.PDelete?
    ensures TickProducer(m, at).Ok? && Inv(TickProducer(m, at).m, h)
  {
    hide ConsumerKnows;
    ConsumerStillKnows(m, h, TickProducer(m, at).m, h);
  }

  lemma QuietTickInv(m: Machine, h: History, at: Addr)
    requires Inv(m, h)
    requires m.p.PLoadLast? || m.p.PReadLink? || m.p.PCount? || m.p.PTest? || m.p.PUncount?
    ensures TickProducer(m, at).Ok? && Inv(TickProducer(m, at).m, h)
  {
    hide ConsumerKnows;
    ConsumerStillKnows(m, h, TickProducer(m, at).m, h);
  }

  lemma ProducerTickInv(m: Machine, h: History, at: Addr)
    requires Inv(m, h) && Enabled(m, ProdTick(at))
    ensures TickProducer(m, at).Ok?
    ensures Inv(TickProducer(m, at).m, Record(m, h, ProdTick(at)))
  {
    match m.p
    case PAlloc(_, _) => AllocInv(m, h, at);
    case PLink(_, _) => LinkInv(m, h, at);
    case PPublish(_) => PublishInv(m, h, at);
    case PAdvance(_) => AdvanceInv(m, h, at);
    case PReset(_) => ResetInv(m, h, at);
    case PDelete(_) => DeleteInv(m, h, at);
    case _ => QuietTickInv(m, h, at);
  }

  /**
   Comparing addresses is comparing positions: although the allocator reuses addresses, divider == last means that
   nothing is queued, and otherwise the divider node is linked to the node of the next event.
   */
  lemma DividerIsNotLast(m: Machine, h: History)
    requires Inv(m, h)
    ensures m.divider in m.heap
    ensures m.divider == m.last <==> h.d == h.l
    ensures h.d < h.l ==>
              var next := m.heap[m.divider].next;
              && next == h.nodes[h.d + 1] && next != NULL
              && next in m.heap && m.heap[next].eptr == Some(h.events[h.d])
  {
  }

  /** The consumer's step as seen by the consumer alone: it never writes the heap. */
  lemma ConsumerTickKnows(m: Machine, h: History)
    requires Control(m, h) && Enabled(m, ConsTick)
    requires m.divider in m.heap && (m.divider == m.last ==> h.d == h.l)
    requires h.d < h.l ==>
               var next := m.heap[m.divider].next;
               && next == h.nodes[h.d + 1] && next != NULL
               && next in m.heap && m.heap[next].eptr == Some(h.events[h.d])
    ensures TickConsumer(m).Ok?
    ensures Control(TickConsumer(m).m, Record(m, h, ConsTick))
  {
  }

  lemma ConsumerTickInv(m: Machine, h: History)
    requires Inv(m, h) && Enabled(m, ConsTick)
    ensures TickConsumer(m).Ok?
    ensures Inv(TickConsumer(m).m, Record(m, h, ConsTick))
  {
    DividerIsNotLast(m, h);
    ConsumerTickKnows(m, h);
    var m', h' := TickConsumer(m).m, Record(m, h, ConsTick);
    assert m' == m.(divider := m'.divider, c := m'.c) && h' == h.(d := h'.d);
    assert ProducerKnows(m', h') by { assert h.d <= h'.d; }
  }

  lemma CallInv(m: Machine, h: History, a: Action)
    requires Inv(m, h) && Enabled(m, a) && !a.ProdTick? && !a.ConsTick?
    ensures Inv(Step(m, a).m, h)
  {
    var m' := Step(m, a).m;
    assert m' == m.(p := m'.p, c := m'.c) && Low(m', h) == Low(m, h) && Linked(m') == Linked(m);
  }

  /** No enabled action faults, and each keeps the invariant. */
  lemma StepInv(m: Machine, h: History, a: Action)
    requires Inv(m, h) && Enabled(m, a)
    ensures Step(m, a).Ok?
    ensures Inv(Step(m, a).m, Record(m, h, a))
  {
    match a
    case ProdTick(at) => ProducerTickInv(m, h, at);
    case ConsTick => ConsumerTickInv(m, h);
    case _ => CallInv(m, h, a);
  }
}
