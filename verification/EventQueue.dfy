/** The queue and the heap as one thread sees them: the classes of eventQueue.h with their fields updated in place. */
module EventQueues {
  import opened Events

  class EventJob {
    var eptr: Option<Event>
    var next: EventJob?

    constructor (ptr: Option<Event>)
      ensures eptr == ptr && next == null
    {
      eptr := ptr;
      next := null;
    }
  }

  /** A linked list from `first` over `divider` to `last`; what follows `divider` is queued. */
  class EventQueue {
    var first: EventJob?
    var divider: EventJob
    var last: EventJob
    var numEvents: int

    ghost var chain: seq<EventJob>   // the nodes not yet deleted, from first to last
    ghost var d: nat                 // position of divider in chain

    ghost function Repr(): set<object>
      reads this
    {
      {this} + set n: object | n in chain
    }

    ghost predicate Valid()
      reads this, chain
    {
      && d < |chain|
      && first == chain[0] && divider == chain[d] && last == chain[|chain| - 1]
      && (forall i, j | 0 <= i < j < |chain| :: chain[i] != chain[j])
      && (forall i | 0 <= i < |chain| - 1 :: chain[i].next == chain[i + 1])
      && chain[|chain| - 1].next == null
      && (forall i | 0 < i < |chain| :: chain[i].eptr.Some?)
      && numEvents == |chain|
    }

    /** The events queued, oldest first. */
    ghost function Contents(): (s: seq<Event>)
      reads this, chain
      requires Valid()
      ensures |s| == |chain| - 1 - d
    {
      seq(|chain| - 1 - d,
          i requires 0 <= i < |chain| - 1 - d && Valid() reads this, chain => chain[d + 1 + i].eptr.value)
    }

    constructor ()
      ensures Valid() && Contents() == [] && fresh(Repr())
    {
      var dummy := new EventJob(None);
      last := dummy;
      divider := dummy;
      first := dummy;
      numEvents := 1;
      chain := [dummy];
      d := 0;
    }

    /** One turn of the clean-up loop: unlinks the first node, which lies before the divider, and empties it. */
    method DeleteFirst()
      requires Valid() && 0 < d
      modifies this`first, this`numEvents, this`chain, this`d, first
      ensures Valid() && chain == old(chain[1..]) && d == old(d) - 1 && divider == old(divider) && last == old(last)
      ensures Contents() == old(Contents())
    {
      var tmp := first;
      first := first.next;
      tmp.eptr := None;
      numEvents := numEvents - 1;
      chain, d := chain[1..], d - 1;
    }

    /** Deletes the nodes before the divider; one more than the number of events queued is left. */
    method CleanUp() returns (n: int)
      requires Valid()
      modifies Repr()
      ensures Valid() && Contents() == old(Contents()) && n == numEvents == 1 + |Contents()|
      ensures chain == old(chain[d..])
    {
      while first != divider
        invariant Valid() && d <= old(d) && chain == old(chain)[old(d) - d..]
        invariant Contents() == old(Contents())
        decreases d
      {
        DeleteFirst();
      }
      assert d == 0;
      return numEvents;
    }

    /** The first half of addEvent: links a new node behind the last one and publishes it. */
    method Append(e: Event)
      requires Valid()
      modifies this`last, this`numEvents, this`chain, last`next
      ensures Valid() && d == old(d) && |chain| == |old(chain)| + 1
      ensures fresh(chain[|chain| - 1]) && chain[..|chain| - 1] == old(chain)
      ensures Contents() == old(Contents()) + [e]
    {
      var lastNode := last;
      var job := new EventJob(Some(e));
      lastNode.next := job;
      last := job;
      numEvents := numEvents + 1;
      chain := chain + [job];
    }

    method AddEvent(e: Event)
      requires Valid()
      modifies Repr()
      ensures Valid() && fresh(Repr() - old(Repr()))
      ensures Contents() == old(Contents()) + [e] && numEvents == 1 + |Contents()|
    {
      Append(e);
      var _ := CleanUp();
    }

    /** Takes the oldest event; on an empty queue it says so and changes nothing. */
    method GetEvent() returns (ok: bool, job: Option<Event>)
      requires Valid()
      modifies this`divider, this`d
      ensures Valid() && ok == (old(Contents()) != [])
      ensures ok ==> job.Some? && old(Contents()) == [job.value] + Contents()
      ensures !ok ==> job.None? && Contents() == []
    {
      var dividerNode := divider;
      if dividerNode != last {
        var next := dividerNode.next;
        assert next == chain[d + 1] && chain[d + 1].eptr == Some(Contents()[0]);
        if next != null {
          job := next.eptr;
          divider := next;
          d := d + 1;
          return true, job;
        }
      }
      return false, None;
    }

    /** The time of the event GetEvent would hand out, -1 on an empty queue. */
    method NextEventTime() returns (t: int)
      requires Valid()
      ensures t == if Contents() == [] then -1 else Contents()[0].time
    {
      var dividerNode := divider;
      if dividerNode != last {
        var next := dividerNode.next;
        assert next == chain[d + 1] && chain[d + 1].eptr == Some(Contents()[0]);
        if next != null {
          return next.eptr.value.time;
        }
      }
      return -1;
    }

    /** The destructor: every node still in the chain is deleted, from the front. */
    method Destroy() returns (ghost deleted: seq<EventJob>)
      requires Valid()
      modifies this`first
      ensures first == null && deleted == old(chain)
    {
      deleted := [];
      while first != null
        invariant |deleted| <= |chain| && deleted == chain[..|deleted|]
        invariant first == if |deleted| < |chain| then chain[|deleted|] else null
        decreases |chain| - |deleted|
      {
        var tmp := first;
        first := tmp.next;
        deleted := deleted + [tmp];
      }
    }
  }

  /** The jobs ordered by compareEvents: which of several earliest events comes out first is left open. */
  class EventHeap {
    var events: multiset<Event>

    constructor ()
      ensures events == multiset{}
    {
      events := multiset{};
    }

    method AddEvent(e: Event)
      modifies this
      ensures events == old(events) + multiset{e}
    {
      events := events + multiset{e};
    }

    method NextEventTime() returns (t: int)
      ensures events == multiset{} ==> t == -1
      ensures events != multiset{} ==> exists e :: IsMin(e, events) && e.time == t
    {
      if events == multiset{} { return -1; }
      MinExists(events);
      var e :| e in events && forall x | x in events :: e.time <= x.time;
      assert IsMin(e, events);
      return e.time;
    }

    method NextEvent() returns (e: Option<Event>)
      modifies this
      ensures old(events) == multiset{} ==> e.None? && events == multiset{}
      ensures old(events) != multiset{} ==>
                e.Some? && IsMin(e.value, old(events)) && events == old(events) - multiset{e.value}
    {
      if events == multiset{} { return None; }
      MinExists(events);
      var top :| top in events && forall x | x in events :: top.time <= x.time;
      events := events - multiset{top};
      return Some(top);
    }
  }
}
