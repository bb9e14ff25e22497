/**
 When the event handler asks the file worker for more: a signal after every tenth part of the quota handled, counted by
 a counter that is reset now and then and guarded by the count at the last request.
 */
module Signalling {
  import opened Division

  /** fileEventsHandledCount and lastEventCountWhenRequestingForMore. */
  datatype Counters = Counters(handled: nat, lastRequest: nat)

  const START := Counters(0, 0)

  function Share(quota: nat): nat { quota / 10 }

  function AfterPull(quota: nat, c: Counters): (Counters, bool)
    requires 10 <= quota
  {
    var n := c.handled + 1;
    if n % Share(quota) == 0 && c.lastRequest != n then (Counters(n, n), true) else (Counters(n, c.lastRequest), false)
  }

  /** The test at the end of the pull loop: the counter starts over above half the quota. */
  function AfterPass(quota: nat, c: Counters): (Counters, bool) {
    if c.handled > quota / 2 then (c.(handled := 0), true) else (c, false)
  }

  /** Over a run: events handled, signals sent, counter resets, and events handled since the last signal. */
  datatype Totals = Totals(handled: nat, sent: nat, resets: nat, gap: nat)

  const NOTHING := Totals(0, 0, 0, 0)

  datatype Step = Pull | EndOfPass

  function Next(quota: nat, c: Counters, t: Totals, s: Step): (Counters, Totals)
    requires 10 <= quota
  {
    match s
    case Pull =>
      var (c', sent) := AfterPull(quota, c);
      (c', Totals(t.handled + 1, if sent then t.sent + 1 else t.sent, t.resets, if sent then 0 else t.gap + 1))
    case EndOfPass =>
      var (c', reset) := AfterPass(quota, c);
      (c', if reset then t.(resets := t.resets + 1) else t)
  }

  function Run(quota: nat, steps: seq<Step>): (Counters, Totals)
    requires 10 <= quota
  {
    if steps == [] then (START, NOTHING)
    else
      var (c, t) := Run(quota, steps[..|steps| - 1]);
      Next(quota, c, t, steps[|steps| - 1])
  }

  /** What a pull and the end of a pass do to the counters, the signals and the resets. */
  lemma CountersMove(quota: nat, c: Counters, t: Totals)
    requires 10 <= quota
    ensures var (c', t') := Next(quota, c, t, Pull);
            var due := (c.handled + 1) % (quota / 10) == 0 && c.lastRequest != c.handled + 1;
            && c' == Counters(c.handled + 1, if due then c.handled + 1 else c.lastRequest)
            && t' == Totals(t.handled + 1, t.sent + (if due then 1 else 0), t.resets, if due then 0 else t.gap + 1)
    ensures var (c', t') := Next(quota, c, t, EndOfPass);
            && c' == Counters(if c.handled <= quota / 2 then c.handled else 0, c.lastRequest)
            && t' == t.(resets := t.resets + if c.handled <= quota / 2 then 0 else 1)
  {
  }

  /** Over any run: after the end of a pass the counter is at most half the quota, and each pull since adds one. */
  lemma {:induction false} CounterStaysLow(quota: nat, steps: seq<Step>, pulls: nat)
    requires 10 <= quota && pulls < |steps| && steps[|steps| - 1 - pulls] == EndOfPass
    requires forall i | |steps| - pulls <= i < |steps| :: steps[i] == Pull
    ensures pulls <= Run(quota, steps).0.handled <= quota / 2 + pulls
    decreases pulls
  {
    var before := steps[..|steps| - 1];
    var (c, t) := Run(quota, before);
    CountersMove(quota, c, t);
    if pulls > 0 {
      CounterStaysLow(quota, before, pulls - 1);
    }
  }

  // ---- the invariant ----

  /** `lost` is what the resets threw away: events handled after the last signal before each of them. */
  ghost predicate InvWith(quota: nat, c: Counters, t: Totals, lost: nat)
    requires 10 <= quota
  {
    var k := Share(quota);
    && t.handled == t.sent * k + lost + c.handled % k
    && lost <= t.resets * (k - 1)
    && (if k <= c.handled then c.lastRequest == c.handled - c.handled % k && t.gap == c.handled % k
        else if t.resets == 0 then c.lastRequest == 0 && t.gap == c.handled
        else 5 * k <= c.lastRequest && c.handled <= t.gap < c.handled + k)
  }

  lemma PullKeeps(quota: nat, c: Counters, t: Totals, lost: nat)
    requires 10 <= quota && InvWith(quota, c, t, lost)
    ensures var (c', t') := Next(quota, c, t, Pull); InvWith(quota, c', t', lost)
    ensures AfterPull(quota, c).1 <==> (c.handled + 1) % Share(quota) == 0
    ensures t.gap + 1 <= 2 * Share(quota) - 1
  {
    var k := Share(quota);
    Succ(c.handled, k);
    if c.handled < k {
      Divide(c.handled, k, 0, c.handled);
    }
    if (c.handled + 1) % k == 0 {
      assert (t.sent + 1) * k == t.sent * k + k;
    }
  }

  lemma EndOfPassKeeps(quota: nat, c: Counters, t: Totals, lost: nat)
    requires 10 <= quota && InvWith(quota, c, t, lost)
    ensures var (c', t') := Next(quota, c, t, EndOfPass);
            InvWith(quota, c', t', if AfterPass(quota, c).1 then lost + c.handled % Share(quota) else lost)
  {
    var k := Share(quota);
    if c.handled > quota / 2 {
      FiveShares(quota, c.handled);
      Divide(0, k, 0, 0);
      assert (t.resets + 1) * (k - 1) == t.resets * (k - 1) + (k - 1);
    }
  }

  lemma FiveShares(quota: nat, n: nat)
    requires 10 <= quota && n > quota / 2
    ensures 5 * Share(quota) <= n - n % Share(quota)
  {
    var k := Share(quota);
    var q := n / k;
    assert n == q * k + n % k && 5 * k <= n;
    if q < 5 {
      Apart(q, 5, k);
    } else if 5 < q {
      Apart(5, q, k);
    }
  }

  lemma {:induction false} RunKeeps(quota: nat, steps: seq<Step>) returns (lost: nat)
    requires 10 <= quota
    ensures var (c, t) := Run(quota, steps); InvWith(quota, c, t, lost)
  {
    if steps == [] {
      Divide(0, Share(quota), 0, 0);
      lost := 0;
    } else {
      var lost0 := RunKeeps(quota, steps[..|steps| - 1]);
      var (c, t) := Run(quota, steps[..|steps| - 1]);
      match steps[|steps| - 1] {
        case Pull =>
          PullKeeps(quota, c, t, lost0);
          lost := lost0;
        case EndOfPass =>
          EndOfPassKeeps(quota, c, t, lost0);
          lost := if AfterPass(quota, c).1 then lost0 + c.handled % Share(quota) else lost0;
      }
    }
  }

  /**
   Over any run with H events handled, S signals and R resets: S*K <= H < (S+R+1)*K, the guard on the count at the last
   request never holds back a signal that is due, and at most 2K-1 events are handled from one signal to the next.
   */
  lemma SignalsKeepUp(quota: nat, steps: seq<Step>)
    requires 10 <= quota
    ensures var (c, t) := Run(quota, steps);
            var k := quota / 10;
            && t.sent * k <= t.handled < (t.sent + t.resets + 1) * k
            && (AfterPull(quota, c).1 <==> (c.handled + 1) % k == 0)
            && t.gap + 1 <= 2 * k - 1
  {
    var lost := RunKeeps(quota, steps);
    var (c, t) := Run(quota, steps);
    Bounds(quota, c, t, lost);
    PullKeeps(quota, c, t, lost);
  }

  lemma Bounds(quota: nat, c: Counters, t: Totals, lost: nat)
    requires 10 <= quota && InvWith(quota, c, t, lost)
    ensures var k := Share(quota);
            t.sent * k <= t.handled < (t.sent + t.resets + 1) * k && t.gap + 1 <= 2 * k - 1
  {
    PullKeeps(quota, c, t, lost);
    hide AfterPull;
    Spread(t.sent, t.resets, Share(quota), lost, c.handled % Share(quota));
  }

  lemma Spread(sent: nat, resets: nat, k: nat, lost: nat, over: nat)
    requires over < k && lost <= resets * (k - 1)
    ensures sent * k <= sent * k + lost + over < (sent + resets + 1) * k
  {
    assert resets * (k - 1) == resets * k - resets;
    assert (sent + resets + 1) * k == sent * k + resets * k + k;
  }
}
