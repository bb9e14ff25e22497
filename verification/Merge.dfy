/**
 The merge of connection events and file events: a heap that is only drained up to a watermark. A drain may stop early,
 and the heap may be refilled at any time.
 */
module Merge {
  import opened Events

  /** `out` is everything released so far, `loaded` everything ever put in the heap. */
  datatype Merge = Merge(heap: multiset<Event>, out: seq<Event>, watermark: int, loaded: multiset<Event>)

  ghost predicate Conserved(m: Merge) { m.heap + multiset(m.out) == m.loaded }

  ghost predicate InOrder(m: Merge) {
    Sorted(m.out) && forall e | e in m.out :: e.time <= m.watermark && forall x | x in m.heap :: e.time <= x.time
  }

  /** The guard of the drain loop on the heap's next event. */
  ghost predicate Due(m: Merge, e: Event) {
    IsMin(e, m.heap) && -1 < e.time <= m.watermark
  }

  ghost function Release(m: Merge, e: Event): Merge {
    m.(heap := m.heap - multiset{e}, out := m.out + [e])
  }

  ghost function Refill(m: Merge, batch: seq<Event>, watermark: int): Merge {
    m.(heap := m.heap + multiset(batch), loaded := m.loaded + multiset(batch), watermark := watermark)
  }

  lemma OrderIsSorted(m: Merge)
    requires InOrder(m)
    ensures Sorted(m.out)
  {
  }

  lemma ReleaseKeepsOrder(m: Merge, e: Event)
    requires InOrder(m) && Due(m, e)
    ensures InOrder(Release(m, e))
  {
    var m' := Release(m, e);
    forall x | x in m'.out ensures x.time <= m'.watermark && forall y | y in m'.heap :: x.time <= y.time {
      assert x in m.out || x == e;
    }
  }

  lemma ReleaseConserves(m: Merge, e: Event)
    requires Conserved(m) && e in m.heap
    ensures Conserved(Release(m, e))
  {
    assert multiset(m.out + [e]) == multiset(m.out) + multiset{e};
  }

  /** Loading keeps the order if nothing it loads is earlier than the watermark. */
  lemma RefillKeepsOrder(m: Merge, batch: seq<Event>, watermark: int)
    requires InOrder(m) && m.watermark <= watermark
    requires forall e | e in batch :: m.watermark <= e.time
    ensures InOrder(Refill(m, batch, watermark))
  {
  }

  // ---- drains ----

  ghost function ReleaseAll(m: Merge, es: seq<Event>): Merge {
    if es == [] then m else Release(ReleaseAll(m, es[..|es| - 1]), es[|es| - 1])
  }

  /** Each of the events is due when its turn comes. */
  ghost predicate AllDue(m: Merge, es: seq<Event>) {
    es == [] || (AllDue(m, es[..|es| - 1]) && Due(ReleaseAll(m, es[..|es| - 1]), es[|es| - 1]))
  }

  lemma OneMore(m: Merge, es: seq<Event>, e: Event)
    ensures ReleaseAll(m, es + [e]) == Release(ReleaseAll(m, es), e)
    ensures AllDue(m, es + [e]) <==> AllDue(m, es) && Due(ReleaseAll(m, es), e)
  {
    assert (es + [e])[..|es|] == es;
  }

  /** The drain loop's guard fails: the heap is empty, or its next event is not due. */
  ghost predicate Drained(m: Merge) {
    forall e | IsMin(e, m.heap) :: e.time <= -1 || m.watermark < e.time
  }

  /** How the drain loop counts what it releases: when the count exceeds the quota it starts over. */
  function CountAfter(quota: nat, added: nat, released: nat): nat {
    if added + released <= quota then added + released else 0
  }

  /** One drain releases `es`: events due in turn, until none is or the count exceeds the quota. */
  ghost predicate Drains(quota: nat, m: Merge, added: nat, es: seq<Event>) {
    AllDue(m, es) && if added + |es| <= quota then Drained(ReleaseAll(m, es)) else added + |es| == quota + 1
  }

  lemma ReleaseIs(m: Merge, e: Event)
    ensures var m' := Release(m, e);
            m'.out == m.out + [e] && m'.watermark == m.watermark && m'.loaded == m.loaded
  {
  }

  lemma Appended(a: seq<Event>, b: seq<Event>, e: Event)
    ensures a + b + [e] == a + (b + [e])
  {
  }

  lemma {:induction false} ReleaseAllIs(m: Merge, es: seq<Event>)
    ensures var m' := ReleaseAll(m, es);
            m'.out == m.out + es && m'.watermark == m.watermark && m'.loaded == m.loaded
  {
    hide Release;
    if es != [] {
      var front, e := es[..|es| - 1], es[|es| - 1];
      ReleaseAllIs(m, front);
      ReleaseIs(ReleaseAll(m, front), e);
      Appended(m.out, front, e);
      assert es == front + [e];
    }
  }

  lemma {:induction false} AllDueConserves(m: Merge, es: seq<Event>)
    requires AllDue(m, es) && Conserved(m)
    ensures Conserved(ReleaseAll(m, es)) && |ReleaseAll(m, es).heap| + |es| == |m.heap|
  {
    hide Conserved;
    if es != [] {
      AllDueConserves(m, es[..|es| - 1]);
      ReleaseConserves(ReleaseAll(m, es[..|es| - 1]), es[|es| - 1]);
    }
  }

  lemma {:induction false} AllDueKeepsOrder(m: Merge, es: seq<Event>)
    requires AllDue(m, es) && InOrder(m)
    ensures InOrder(ReleaseAll(m, es))
  {
    if es != [] {
      AllDueKeepsOrder(m, es[..|es| - 1]);
      ReleaseKeepsOrder(ReleaseAll(m, es[..|es| - 1]), es[|es| - 1]);
    }
  }

  /** A drain can always be carried on to its end. */
  lemma {:induction false} DrainOn(quota: nat, m: Merge, added: nat, es0: seq<Event>) returns (es: seq<Event>)
    requires AllDue(m, es0) && added + |es0| <= quota
    ensures Drains(quota, m, added, es) && es0 <= es
    decreases quota - |es0|
  {
    hide AllDue, ReleaseAll, Release, Conserved;
    var m0 := ReleaseAll(m, es0);
    if Drained(m0) {
      es := es0;
    } else {
      var e :| IsMin(e, m0.heap) && -1 < e.time <= m0.watermark;
      OneMore(m, es0, e);
      if added + |es0| + 1 <= quota {
        es := DrainOn(quota, m, added, es0 + [e]);
      } else {
        es := es0 + [e];
      }
    }
  }

  lemma NothingDueMeansDrained(m: Merge)
    requires m.heap == multiset{} || exists e :: IsMin(e, m.heap) && !Due(m, e)
    ensures Drained(m)
  {
  }

  /** Promptness: a drain that was not stopped leaves only events later than the watermark. */
  lemma DrainedLeavesOnlyLater(m: Merge)
    requires Drained(m) && forall x | x in m.heap :: 0 <= x.time
    ensures forall x | x in m.heap :: m.watermark < x.time
  {
    if m.heap != multiset{} {
      MinExists(m.heap);
    }
  }
}
