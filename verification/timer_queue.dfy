/**
 * The pending `setTimeout` callbacks of one page, as a deterministic queue.
 * Each timer remembers when it is due, the order in which it was armed, and
 * the scheduled entry its callback emits. Following the timer initialization
 * steps of section 8.6 (Timers) of the WHATWG HTML Living Standard, a timer
 * runs only after every timer armed before it whose timeout is equal or
 * smaller; among timers armed at one instant this is the order
 * (due time, arm order), which `NextIndex` picks.
 */
module TimerQueue {
  import opened ChatTypes
  import opened Timeouts
  import opened Ordering

  datatype Timer = Timer(due: int, order: nat, entry: ScheduledMessage)

  /** `a` runs before `b`: it is due earlier, or due together and armed earlier. */
  predicate Before(a: Timer, b: Timer) {
    a.due < b.due || (a.due == b.due && a.order < b.order)
  }

  /** The pending list is kept in the order the timers were armed. */
  predicate ArmOrdered(p: seq<Timer>) {
    forall i, j :: 0 <= i < j < |p| ==> p[i].order < p[j].order
  }

  /** Every timer of `p` was armed at `now` with its entry's timeout. */
  predicate ArmedAt(p: seq<Timer>, now: int) {
    forall i :: 0 <= i < |p| ==> p[i].due == now + Key(p[i].entry)
  }

  /** The timer that fires next: no pending timer runs before it. */
  function NextIndex(p: seq<Timer>): (i: nat)
    requires |p| > 0
    ensures i < |p|
    ensures forall j :: 0 <= j < |p| ==> !Before(p[j], p[i])
    ensures ArmOrdered(p) ==> forall j :: 0 <= j < |p| && j != i ==> Before(p[i], p[j])
  {
    if |p| == 1 then 0
    else
      var k := NextIndex(p[1..]) + 1;
      assert p[k] == p[1..][k - 1];
      if Before(p[k], p[0]) then k else 0
  }

  /** `p` after its `i`-th timer has run. */
  function Without(p: seq<Timer>, i: nat): seq<Timer>
    requires i < |p|
  {
    p[..i] + p[i + 1..]
  }

  function Entries(p: seq<Timer>): seq<ScheduledMessage> {
    seq(|p|, i requires 0 <= i < |p| => p[i].entry)
  }

  /** The entries emitted, in order, when every pending timer has run, earliest first. */
  function Drain(p: seq<Timer>): seq<ScheduledMessage>
    decreases |p|
  {
    if p == [] then []
    else
      var i := NextIndex(p);
      [p[i].entry] + Drain(Without(p, i))
  }

  /** The timers one `forEach` over `plan` arms at `now`, numbered from `base`. */
  function Armed(now: int, base: nat, plan: seq<ScheduledMessage>): (p: seq<Timer>)
    ensures |p| == |plan|
    ensures ArmOrdered(p) && ArmedAt(p, now)
    ensures Entries(p) == plan
  {
    seq(|plan|, i requires 0 <= i < |plan| => Timer(now + Key(plan[i]), base + i, plan[i]))
  }

  lemma {:induction false} WithoutEntries(p: seq<Timer>, i: nat)
    requires i < |p|
    ensures Entries(p) == Entries(p[..i]) + [p[i].entry] + Entries(p[i + 1..])
    ensures Entries(Without(p, i)) == Entries(p[..i]) + Entries(p[i + 1..])
  {
  }

  lemma {:induction false} WithoutKeepsArmOrder(p: seq<Timer>, i: nat, now: int)
    requires i < |p|
    ensures ArmOrdered(p) ==> ArmOrdered(Without(p, i))
    ensures ArmedAt(p, now) ==> ArmedAt(Without(p, i), now)
  {
    var q := Without(p, i);
    forall j | 0 <= j < |q|
      ensures q[j] == if j < i then p[j] else p[j + 1]
    {
    }
  }

  /** Every pending timer eventually fires, exactly once: a drain emits the pending entries, rearranged. */
  lemma {:induction false} EveryPendingTimerFires(p: seq<Timer>)
    ensures multiset(Drain(p)) == multiset(Entries(p))
    decreases |p|
  {
    if p != [] {
      var i := NextIndex(p);
      EveryPendingTimerFires(Without(p, i));
      WithoutEntries(p, i);
    }
  }

  /** In one run, the timer that fires has the smallest key, and every timer armed before it a strictly larger one. */
  lemma {:induction false} NextHasSmallestKey(p: seq<Timer>, now: int)
    requires |p| > 0 && ArmOrdered(p) && ArmedAt(p, now)
    ensures forall j :: 0 <= j < |p| ==> Key(p[NextIndex(p)].entry) <= Key(p[j].entry)
    ensures forall j :: 0 <= j < NextIndex(p) ==> Key(p[NextIndex(p)].entry) < Key(p[j].entry)
  {
  }

  /** The first emitted entry bounds the rest of a drain from below. */
  lemma {:induction false} DrainStepSorted(p: seq<Timer>, now: int)
    requires |p| > 0 && ArmOrdered(p) && ArmedAt(p, now)
    requires SortedByKey(Drain(Without(p, NextIndex(p))))
    ensures SortedByKey(Drain(p))
  {
    var i := NextIndex(p);
    var x := p[i].entry;
    var q := Without(p, i);
    NextHasSmallestKey(p, now);
    assert forall m :: 0 <= m < |q| ==> Key(x) <= Key(q[m].entry) by {
      forall m | 0 <= m < |q|
        ensures Key(x) <= Key(q[m].entry)
      {
        assert q[m] == if m < i then p[m] else p[m + 1];
      }
    }
    EveryPendingTimerFires(q);
    forall y | y in multiset(Drain(q))
      ensures Key(x) <= Key(y)
    {
      assert y in multiset(Entries(q));
    }
    assert Drain(p) == [x] + Drain(q);
    SortedCons(x, Drain(q));
  }

  /** Taking `x` out of the middle of a sequence moves it to the front of its group, provided nothing before it shares its key. */
  lemma {:induction false} GroupsWithoutMiddle(before: seq<ScheduledMessage>, x: ScheduledMessage, after: seq<ScheduledMessage>, k: nat)
    requires Key(x) == k ==> WithKey(before, k) == []
    ensures WithKey(before + [x] + after, k) == (if Key(x) == k then [x] else []) + WithKey(before + after, k)
  {
    var bx := before + [x];
    WithKeyAppend(bx, after, k);
    WithKeyAppend(before, [x], k);
    WithKeyAppend(before, after, k);
    WithKeyCons(x, [], k);
    assert [x] + [] == [x];
    var wb, wx, wa := WithKey(before, k), WithKey([x], k), WithKey(after, k);
    assert WithKey(bx + after, k) == wb + wx + wa;
    assert WithKey(before + after, k) == wb + wa;
    if Key(x) == k {
      assert wb + wx + wa == [x] + (wb + wa);
    } else {
      assert wb + wx + wa == [] + (wb + wa);
    }
  }

  /** Emitting the next entry first keeps every group of the pending entries in arm order. */
  lemma {:induction false} DrainStepGroups(p: seq<Timer>, now: int, k: nat)
    requires |p| > 0 && ArmOrdered(p) && ArmedAt(p, now)
    requires WithKey(Drain(Without(p, NextIndex(p))), k) == WithKey(Entries(Without(p, NextIndex(p))), k)
    ensures WithKey(Drain(p), k) == WithKey(Entries(p), k)
  {
    var i := NextIndex(p);
    var x := p[i].entry;
    var q := Without(p, i);
    var before := Entries(p[..i]);
    WithoutEntries(p, i);
    if Key(x) == k {
      NextHasSmallestKey(p, now);
      assert forall j :: 0 <= j < |before| ==> before[j] == p[j].entry;
      WithKeyAbsent(before, k);
    }
    GroupsWithoutMiddle(before, x, Entries(p[i + 1..]), k);
    assert Drain(p) == [x] + Drain(q);
    WithKeyCons(x, Drain(q), k);
  }

  /** Draining the timers of one run emits their entries stably sorted by timeout. */
  lemma {:induction false} DrainIsStableSort(p: seq<Timer>, now: int)
    requires ArmOrdered(p) && ArmedAt(p, now)
    ensures IsStableSortOf(Drain(p), Entries(p))
    decreases |p|
  {
    if p != [] {
      var q := Without(p, NextIndex(p));
      WithoutKeepsArmOrder(p, NextIndex(p), now);
      DrainIsStableSort(q, now);
      DrainStepSorted(p, now);
      forall k: nat
        ensures WithKey(Drain(p), k) == WithKey(Entries(p), k)
      {
        DrainStepGroups(p, now, k);
      }
    }
  }

  /** One run over a plan emits exactly the reference sort of the plan, whatever the arm time. */
  lemma {:induction false} OneRunEmitsSortedPlan(now: int, base: nat, plan: seq<ScheduledMessage>)
    ensures Drain(Armed(now, base, plan)) == SortByTimeout(plan)
    ensures multiset(Drain(Armed(now, base, plan))) == multiset(plan)
  {
    DrainIsStableSort(Armed(now, base, plan), now);
    StableSortIsReferenceSort(Drain(Armed(now, base, plan)), plan);
  }

  /** Running the next timer emits its entry and leaves the rest of the drain as it was. */
  lemma {:induction false} DrainStep(p: seq<Timer>)
    requires p != []
    ensures Drain(p) == [p[NextIndex(p)].entry] + Drain(Without(p, NextIndex(p)))
  {
  }

  /** Running the next timer moves its entry from what is still to come to what has been emitted. */
  lemma {:induction false} FireKeepsSchedule(done: seq<ScheduledMessage>, p: seq<Timer>)
    requires p != []
    ensures done + Drain(p) == (done + [p[NextIndex(p)].entry]) + Drain(Without(p, NextIndex(p)))
  {
    DrainStep(p);
  }

  /** The order of a run does not depend on when it was armed nor on how its timers are numbered. */
  lemma {:induction false} ReplayIndependentOfArmTime(now1: int, base1: nat, now2: int, base2: nat, plan: seq<ScheduledMessage>)
    ensures Drain(Armed(now1, base1, plan)) == Drain(Armed(now2, base2, plan))
  {
    OneRunEmitsSortedPlan(now1, base1, plan);
    OneRunEmitsSortedPlan(now2, base2, plan);
  }

  /**
   * Nothing cancels a timer: after a second run is armed behind timers still
   * pending from an earlier one, both runs' entries are emitted.
   */
  lemma {:induction false} StaleTimersStillFire(stale: seq<Timer>, now: int, base: nat, plan: seq<ScheduledMessage>)
    ensures multiset(Drain(stale + Armed(now, base, plan))) == multiset(Entries(stale)) + multiset(plan)
  {
    var p := stale + Armed(now, base, plan);
    EveryPendingTimerFires(p);
    assert Entries(p) == Entries(stale) + Entries(Armed(now, base, plan));
  }

  /** Every timer of `p` was numbered below `n`. */
  predicate OrdersBelow(p: seq<Timer>, n: nat) {
    forall i :: 0 <= i < |p| ==> p[i].order < n
  }

  /** A run armed behind pending timers, numbered past all of them, keeps the arm order. */
  lemma {:induction false} ArmBehind(p: seq<Timer>, now: int, base: nat, plan: seq<ScheduledMessage>)
    requires ArmOrdered(p) && OrdersBelow(p, base)
    ensures ArmOrdered(p + Armed(now, base, plan)) && OrdersBelow(p + Armed(now, base, plan), base + |plan|)
  {
    var a := Armed(now, base, plan);
    var q := p + a;
    forall i, j | 0 <= i < j < |q|
      ensures q[i].order < q[j].order
    {
      if j < |p| {
      } else if i < |p| {
        assert q[j] == a[j - |p|];
      } else {
        assert q[i] == a[i - |p|] && q[j] == a[j - |p|];
      }
    }
    forall i | 0 <= i < |q|
      ensures q[i].order < base + |plan|
    {
      if i >= |p| {
        assert q[i] == a[i - |p|];
      }
    }
  }

  /** A timer's run keeps every pending number below the bound. */
  lemma {:induction false} WithoutKeepsBound(p: seq<Timer>, i: nat, n: nat)
    requires i < |p| && OrdersBelow(p, n)
    ensures OrdersBelow(Without(p, i), n)
  {
    var q := Without(p, i);
    forall j | 0 <= j < |q|
      ensures q[j] == if j < i then p[j] else p[j + 1]
    {
    }
  }

  /** Arming the plan one entry at a time builds `Armed`. */
  lemma {:induction false} ArmedSnoc(now: int, base: nat, plan: seq<ScheduledMessage>, i: nat)
    requires i < |plan|
    ensures Armed(now, base, plan[..i + 1]) == Armed(now, base, plan[..i]) + [Timer(now + Key(plan[i]), base + i, plan[i])]
  {
    var a := Armed(now, base, plan[..i + 1]);
    var b := Armed(now, base, plan[..i]) + [Timer(now + Key(plan[i]), base + i, plan[i])];
    assert |a| == |b|;
    forall j | 0 <= j < |a|
      ensures a[j] == b[j]
    {
      assert plan[..i + 1][j] == plan[j];
    }
  }

  /** The `forEach` that arms one timer per entry, in plan order, at `now`. */
  method ArmAll(now: int, base: nat, plan: seq<ScheduledMessage>) returns (armed: seq<Timer>)
    ensures armed == Armed(now, base, plan)
  {
    armed := [];
    for i := 0 to |plan|
      invariant armed == Armed(now, base, plan[..i])
    {
      ArmedSnoc(now, base, plan, i);
      armed := armed + [Timer(now + TimeoutMs(plan[i].delay), base + i, plan[i])];
    }
    assert plan[..|plan|] == plan;
  }

  /** Entries with delays of 2, 0 and 1 seconds appear in the order 0, 1, 2. */
  lemma ExampleShortestDelayFirst(a: ScheduledMessage, b: ScheduledMessage, c: ScheduledMessage, now: int)
    requires a.delay == Seconds(2) && b.delay == Seconds(0) && c.delay == Seconds(1)
    ensures Drain(Armed(now, 0, [a, b, c])) == [b, c, a]
  {
    OneRunEmitsSortedPlan(now, 0, [a, b, c]);
    SortShortestDelayFirst(a, b, c);
  }

  /** Entries with equal delays appear in plan order, ahead of a longer one listed first. */
  lemma ExampleEqualDelaysKeepPlanOrder(a: ScheduledMessage, b: ScheduledMessage, c: ScheduledMessage, now: int)
    requires a.delay == Seconds(3) && b.delay == Seconds(3) && c.delay == Seconds(5)
    ensures Drain(Armed(now, 0, [c, a, b])) == [a, b, c]
  {
    OneRunEmitsSortedPlan(now, 0, [c, a, b]);
    SortEqualDelaysKeepPlanOrder(a, b, c);
  }
}
