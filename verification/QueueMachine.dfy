/**
 The lock-free EventQueue as two threads over a heap of nodes. Every plain load or store of a node field, every
 atomic load or store, every allocation and every free is one step, and steps of the producer and of the consumer
 interleave freely. Dereferencing an address that is not allocated, dereferencing an empty event pointer and
 freeing twice are outcomes of a step (`Fault`), so that their absence is a theorem and not an assumption.
 The allocator may return any address that is not in use, including one that was freed before.
 */
module QueueMachine {
  import opened Events

  type Addr = nat
  const NULL: Addr := 0

  datatype Node = Node(eptr: Option<Event>, next: Addr)

  /** Where the producer is: each constructor names the access it is about to perform, with its locals. */
  datatype Producer =
    | PIdle
    | PLoadLast(e: Event)                // lastNode = last.load()
    | PAlloc(e: Event, lastNode: Addr)   // new eventJob(e)
    | PLink(lastNode: Addr, node: Addr)  // lastNode->next = node
    | PReadLink(lastNode: Addr)          // read lastNode->next
    | PPublish(node: Addr)               // last.store(node)
    | PCount                             // numEvents++
    | PTest                              // first != divider.load()
    | PAdvance(tmp: Addr)                // first = first->next
    | PReset(tmp: Addr)                  // tmp->eptr.reset()
    | PDelete(tmp: Addr)                 // delete tmp
    | PUncount                           // numEvents--
    | PReturn(result: int)

  /** Where the consumer is: G for getEvent, N for nextEventTime. */
  datatype Consumer =
    | CIdle
    | GLoadDivider                                         // dividerNode = divider.load()
    | GLoadLast(dividerNode: Addr)                         // dividerNode != last.load()
    | GTestNext(dividerNode: Addr)                         // dividerNode->next != nullptr
    | GReadNext(dividerNode: Addr)                         // read dividerNode->next
    | GReadEptr(dividerNode: Addr, node: Addr)             // job = node->eptr
    | GReread(dividerNode: Addr, job: Option<Event>)       // read dividerNode->next again
    | GStore(node: Addr, job: Option<Event>)               // divider.store(node)
    | GReturn(ok: bool, job: Option<Event>)
    | NLoadDivider
    | NLoadLast(dividerNode: Addr)
    | NTestNext(dividerNode: Addr)
    | NReadNext(dividerNode: Addr)
    | NReadEptr(node: Addr)                                // node->eptr->ms_from_start
    | NReturn(time: int)

  datatype Machine = Machine(
    heap: map<Addr, Node>,
    first: Addr, divider: Addr, last: Addr, numEvents: int,
    p: Producer, c: Consumer)

  datatype Outcome = Ok(m: Machine) | Fault

  datatype Action =
    | CallAdd(e: Event) | CallCleanUp | ProdTick(at: Addr) | ProdRet
    | CallGet | CallPeek | ConsTick | ConsRet

  /** The constructor runs before either thread starts: one dummy node, counted in numEvents. */
  function Init(dummy: Addr): Machine {
    Machine(map[dummy := Node(None, NULL)], dummy, dummy, dummy, 1, PIdle, CIdle)
  }

  predicate ProducerAction(a: Action) {
    a.CallAdd? || a.CallCleanUp? || a.ProdTick? || a.ProdRet?
  }

  /** One producer thread, one consumer thread, and an allocator that hands out unused, non-null addresses. */
  predicate Enabled(m: Machine, a: Action) {
    match a
    case CallAdd(_) => m.p.PIdle?
    case CallCleanUp => m.p.PIdle?
    case ProdTick(at) => !m.p.PIdle? && !m.p.PReturn? && (m.p.PAlloc? ==> at != NULL && at !in m.heap)
    case ProdRet => m.p.PReturn?
    case CallGet => m.c.CIdle?
    case CallPeek => m.c.CIdle?
    case ConsTick => !m.c.CIdle? && !m.c.GReturn? && !m.c.NReturn?
    case ConsRet => m.c.GReturn? || m.c.NReturn?
  }

  function TickProducer(m: Machine, at: Addr): Outcome {
    match m.p
    case PIdle => Ok(m)
    case PLoadLast(e) => Ok(m.(p := PAlloc(e, m.last)))
    case PAlloc(e, lastNode) =>
      Ok(m.(heap := m.heap[at := Node(Some(e), NULL)], p := PLink(lastNode, at)))
    case PLink(lastNode, node) =>
      if lastNode !in m.heap then Fault
      else Ok(m.(heap := m.heap[lastNode := m.heap[lastNode].(next := node)], p := PReadLink(lastNode)))
    case PReadLink(lastNode) =>
      if lastNode !in m.heap then Fault else Ok(m.(p := PPublish(m.heap[lastNode].next)))
    case PPublish(node) => Ok(m.(last := node, p := PCount))
    case PCount => Ok(m.(numEvents := m.numEvents + 1, p := PTest))
    case PTest =>
      if m.first != m.divider then Ok(m.(p := PAdvance(m.first))) else Ok(m.(p := PReturn(m.numEvents)))
    case PAdvance(tmp) =>
      if m.first !in m.heap then Fault else Ok(m.(first := m.heap[m.first].next, p := PReset(tmp)))
    case PReset(tmp) =>
      if tmp !in m.heap then Fault
      else Ok(m.(heap := m.heap[tmp := m.heap[tmp].(eptr := None)], p := PDelete(tmp)))
    case PDelete(tmp) =>
      if tmp !in m.heap then Fault else Ok(m.(heap := m.heap - {tmp}, p := PUncount))
    case PUncount => Ok(m.(numEvents := m.numEvents - 1, p := PTest))
    case PReturn(_) => Ok(m)
  }

  function TickConsumer(m: Machine): Outcome {
    match m.c
    case CIdle => Ok(m)
    case GLoadDivider => Ok(m.(c := GLoadLast(m.divider)))
    case GLoadLast(d) => Ok(m.(c := if d != m.last then GTestNext(d) else GReturn(false, None)))
    case GTestNext(d) =>
      if d !in m.heap then Fault
      else Ok(m.(c := if m.heap[d].next != NULL then GReadNext(d) else GReturn(false, None)))
    case GReadNext(d) =>
      if d !in m.heap then Fault else Ok(m.(c := GReadEptr(d, m.heap[d].next)))
    case GReadEptr(d, node) =>
      if node !in m.heap then Fault else Ok(m.(c := GReread(d, m.heap[node].eptr)))
    case GReread(d, job) =>
      if d !in m.heap then Fault else Ok(m.(c := GStore(m.heap[d].next, job)))
    case GStore(node, job) => Ok(m.(divider := node, c := GReturn(true, job)))
    case GReturn(_, _) => Ok(m)
    case NLoadDivider => Ok(m.(c := NLoadLast(m.divider)))
    case NLoadLast(d) => Ok(m.(c := if d != m.last then NTestNext(d) else NReturn(-1)))
    case NTestNext(d) =>
      if d !in m.heap then Fault
      else Ok(m.(c := if m.heap[d].next != NULL then NReadNext(d) else NReturn(-1)))
    case NReadNext(d) =>
      if d !in m.heap then Fault else Ok(m.(c := NReadEptr(m.heap[d].next)))
    case NReadEptr(node) =>
      if node !in m.heap || m.heap[node].eptr.None? then Fault
      else Ok(m.(c := NReturn(m.heap[node].eptr.value.time)))
    case NReturn(_) => Ok(m)
  }

  function Step(m: Machine, a: Action): Outcome {
    match a
    case CallAdd(e) => Ok(m.(p := PLoadLast(e)))
    case CallCleanUp => Ok(m.(p := PTest))
    case ProdTick(at) => TickProducer(m, at)
    case ProdRet => Ok(m.(p := PIdle))
    case CallGet => Ok(m.(c := GLoadDivider))
    case CallPeek => Ok(m.(c := NLoadDivider))
    case ConsTick => TickConsumer(m)
    case ConsRet => Ok(m.(c := CIdle))
  }

  // ---- accesses to the plain (non-atomic) node fields ----

  datatype Field = FEptr | FNext
  datatype Access = Access(node: Addr, field: Field, write: bool)

  /** The plain accesses of the producer's next step; construction and destruction write both fields. */
  function ProducerAccesses(m: Machine, at: Addr): set<Access> {
    match m.p
    case PAlloc(_, _) => {Access(at, FEptr, true), Access(at, FNext, true)}
    case PLink(lastNode, _) => {Access(lastNode, FNext, true)}
    case PReadLink(lastNode) => {Access(lastNode, FNext, false)}
    case PAdvance(_) => {Access(m.first, FNext, false)}
    case PReset(tmp) => {Access(tmp, FEptr, true)}
    case PDelete(tmp) => {Access(tmp, FEptr, true), Access(tmp, FNext, true)}
    case _ => {}
  }

  function ConsumerAccesses(m: Machine): set<Access> {
    match m.c
    case GTestNext(d) => {Access(d, FNext, false)}
    case GReadNext(d) => {Access(d, FNext, false)}
    case GReadEptr(_, node) => {Access(node, FEptr, false)}
    case GReread(d, _) => {Access(d, FNext, false)}
    case NTestNext(d) => {Access(d, FNext, false)}
    case NReadNext(d) => {Access(d, FNext, false)}
    case NReadEptr(node) => {Access(node, FEptr, false)}
    case _ => {}
  }

  ghost predicate Conflict(x: Access, y: Access) {
    x.node == y.node && x.field == y.field && (x.write || y.write)
  }

  ghost predicate DataRace(m: Machine, at: Addr) {
    exists x, y | x in ProducerAccesses(m, at) && y in ConsumerAccesses(m) :: Conflict(x, y)
  }

  /** The two machines hold the same in the field that is accessed. */
  ghost predicate Agree(x: map<Addr, Node>, y: map<Addr, Node>, a: Access) {
    && (a.node in x <==> a.node in y)
    && (a.node in x ==> if a.field.FEptr? then x[a.node].eptr == y[a.node].eptr else x[a.node].next == y[a.node].next)
  }

  /** A step of the producer changes a field of a node, and allocates or frees a node, only where that is listed. */
  lemma ProducerWritesAreListed(m: Machine, at: Addr, n: Addr)
    requires TickProducer(m, at).Ok?
    ensures var heap, heap' := m.heap, TickProducer(m, at).m.heap;
            var listed := ProducerAccesses(m, at);
            && (n in heap && n in heap' && heap[n].eptr != heap'[n].eptr ==> Access(n, FEptr, true) in listed)
            && (n in heap && n in heap' && heap[n].next != heap'[n].next ==> Access(n, FNext, true) in listed)
            && ((n in heap) != (n in heap') ==> Access(n, FEptr, true) in listed && Access(n, FNext, true) in listed)
  {
  }

  /** What a step of the producer does is decided by what it is listed to access. */
  lemma ProducerReadsAreListed(m: Machine, at: Addr, heap: map<Addr, Node>)
    requires forall a | a in ProducerAccesses(m, at) :: Agree(m.heap, heap, a)
    ensures var x, y := TickProducer(m, at), TickProducer(m.(heap := heap), at);
            && (x.Ok? <==> y.Ok?)
            && (x.Ok? ==>
                  && y.m == x.m.(heap := y.m.heap)
                  && forall a | a in ProducerAccesses(m, at) :: Agree(x.m.heap, y.m.heap, a))
  {
    var listed := ProducerAccesses(m, at);
    assert m.p.PLink? ==> Access(m.p.lastNode, FNext, true) in listed;
    assert m.p.PReadLink? ==> Access(m.p.lastNode, FNext, false) in listed;
    assert m.p.PAdvance? ==> Access(m.first, FNext, false) in listed;
    assert m.p.PReset? ==> Access(m.p.tmp, FEptr, true) in listed;
    assert m.p.PDelete? ==> Access(m.p.tmp, FEptr, true) in listed;
  }

  /** The consumer writes no node, and what its step does is decided by what it is listed to access. */
  lemma ConsumerAccessesAreListed(m: Machine, heap: map<Addr, Node>)
    requires forall a | a in ConsumerAccesses(m) :: Agree(m.heap, heap, a)
    ensures forall a | a in ConsumerAccesses(m) :: !a.write
    ensures var x, y := TickConsumer(m), TickConsumer(m.(heap := heap));
            && (x.Ok? <==> y.Ok?)
            && (x.Ok? ==> x.m.heap == m.heap && y.m == x.m.(heap := heap))
  {
    var listed := ConsumerAccesses(m);
    assert m.c.GTestNext? || m.c.GReadNext? || m.c.GReread? || m.c.NTestNext? || m.c.NReadNext? ==>
        Access(m.c.dividerNode, FNext, false) in listed;
    assert m.c.GReadEptr? || m.c.NReadEptr? ==> Access(m.c.node, FEptr, false) in listed;
  }

  // ---- the destructor, run after both threads have stopped ----

  datatype Destruction = Destroyed(heap: map<Addr, Node>, freed: seq<Addr>) | BadFree

  function Destroy(heap: map<Addr, Node>, first: Addr): Destruction
    decreases |heap|
  {
    if first == NULL then Destroyed(heap, [])
    else if first !in heap then BadFree
    else
      var rest := heap - {first};
      assert |rest.Keys| < |heap.Keys| by { assert rest.Keys == heap.Keys - {first}; }
      match Destroy(rest, heap[first].next)
      case BadFree => BadFree
      case Destroyed(h, freed) => Destroyed(h, [first] + freed)
  }
}
