/** The event record every thread of the generator exchanges, and the orders the queues and the heap promise. */
module Events {

  datatype Option<+T> = None | Some(value: T)

  datatype EventType =
    | ACCEPT | ACCEPTED | CONNECT | CONNECTED | CLOSE | RECV | RECVD
    | WAIT | SEND | SENT | SRV_START | SRV_STARTED | SRV_END | NONE

  /** `time` is ms_from_start, `gap` is ms_from_last_event. */
  datatype Event = Event(time: int, gap: int, kind: EventType, connID: int, eventID: int, value: int)

  ghost predicate Sorted(s: seq<Event>) {
    forall i, j | 0 <= i < j < |s| :: s[i].time <= s[j].time
  }

  /** `e` could be on top of a heap holding `h`: compareEvents puts no earlier event below it. */
  ghost predicate IsMin(e: Event, h: multiset<Event>) {
    e in h && forall x | x in h :: e.time <= x.time
  }

  lemma {:induction false} MinExists(h: multiset<Event>)
    requires |h| > 0
    ensures exists e :: IsMin(e, h)
    decreases |h|
  {
    var x :| x in h;
    var rest := h - multiset{x};
    if |rest| == 0 {
      assert h == multiset{x} + rest;
      assert forall y | y in h :: y == x;
      assert IsMin(x, h);
    } else {
      MinExists(rest);
      var m :| IsMin(m, rest);
      var best := if x.time <= m.time then x else m;
      forall y | y in h ensures best.time <= y.time {
        assert y == x || y in rest;
      }
      assert IsMin(best, h);
    }
  }

  /** How many events at the front of a queue are due. */
  function DueCount(queue: seq<Event>, now: int): (k: nat)
    ensures k <= |queue| && (forall i | 0 <= i < k :: 0 <= queue[i].time <= now)
    ensures k < |queue| ==> queue[k].time < 0 || now < queue[k].time
  {
    if queue != [] && 0 <= queue[0].time <= now then 1 + DueCount(queue[1..], now) else 0
  }
}
