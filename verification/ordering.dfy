/**
 * The order in which one run of timers emits a plan: by timeout, and among
 * equal timeouts in plan order. This module states that order as a property
 * (sorted by timeout, and every group of equal timeouts kept in plan order),
 * proves that the property determines the result, and gives an independent
 * reference definition (an insertion sort) that has it.
 */
module Ordering {
  import opened ChatTypes
  import opened Timeouts

  /** The ordering key of an entry: the timeout its timer is armed with. */
  function Key(m: ScheduledMessage): nat {
    TimeoutMs(m.delay)
  }

  predicate SortedByKey(s: seq<ScheduledMessage>) {
    forall i, j :: 0 <= i < j < |s| ==> Key(s[i]) <= Key(s[j])
  }

  /** The entries of `s` whose key is `k`, in their order in `s`. */
  function WithKey(s: seq<ScheduledMessage>, k: nat): seq<ScheduledMessage> {
    if s == [] then []
    else (if Key(s[0]) == k then [s[0]] else []) + WithKey(s[1..], k)
  }

  /** `r` is `plan` stably sorted by key: sorted, and each group of equal keys in plan order. */
  ghost predicate IsStableSortOf(r: seq<ScheduledMessage>, plan: seq<ScheduledMessage>) {
    SortedByKey(r) && forall k: nat :: WithKey(r, k) == WithKey(plan, k)
  }

  lemma {:induction false} WithKeyCons(x: ScheduledMessage, s: seq<ScheduledMessage>, k: nat)
    ensures WithKey([x] + s, k) == (if Key(x) == k then [x] else []) + WithKey(s, k)
  {
    assert ([x] + s)[1..] == s;
  }

  lemma {:induction false} WithKeyAppend(a: seq<ScheduledMessage>, b: seq<ScheduledMessage>, k: nat)
    ensures WithKey(a + b, k) == WithKey(a, k) + WithKey(b, k)
  {
    if a == [] {
      assert a + b == b;
    } else {
      var head := if Key(a[0]) == k then [a[0]] else [];
      assert (a + b)[0] == a[0];
      assert (a + b)[1..] == a[1..] + b;
      assert WithKey(a + b, k) == head + WithKey(a[1..] + b, k);
      WithKeyAppend(a[1..], b, k);
      assert WithKey(a, k) == head + WithKey(a[1..], k);
    }
  }

  /** No entry of `s` has key `k`: its group for `k` is empty. */
  lemma {:induction false} WithKeyAbsent(s: seq<ScheduledMessage>, k: nat)
    requires forall i :: 0 <= i < |s| ==> Key(s[i]) != k
    ensures WithKey(s, k) == []
  {
    if s != [] {
      WithKeyAbsent(s[1..], k);
    }
  }

  /** A group holds exactly the entries of `s` with that key. */
  lemma {:induction false} GroupMembers(s: seq<ScheduledMessage>, k: nat)
    ensures forall i :: 0 <= i < |WithKey(s, k)| ==> WithKey(s, k)[i] in s && Key(WithKey(s, k)[i]) == k
    ensures forall i :: 0 <= i < |s| && Key(s[i]) == k ==> s[i] in WithKey(s, k)
  {
    if s != [] {
      GroupMembers(s[1..], k);
      WithKeyCons(s[0], s[1..], k);
      assert s == [s[0]] + s[1..];
    }
  }

  /** Every entry lies in its own key's group. */
  lemma {:induction false} InOwnGroup(s: seq<ScheduledMessage>, i: nat)
    requires i < |s|
    ensures s[i] in WithKey(s, Key(s[i]))
  {
    GroupMembers(s, Key(s[i]));
  }

  /** Two sorted sequences with the same groups start with the same key. */
  lemma {:induction false} SameGroupsSameFirstKey(r1: seq<ScheduledMessage>, r2: seq<ScheduledMessage>)
    requires SortedByKey(r1) && SortedByKey(r2)
    requires forall k: nat :: WithKey(r1, k) == WithKey(r2, k)
    requires r1 != [] && r2 != []
    ensures Key(r1[0]) == Key(r2[0])
  {
    var a, b := r1[0], r2[0];
    InOwnGroup(r1, 0);
    InOwnGroup(r2, 0);
    GroupMembers(r1, Key(b));
    GroupMembers(r2, Key(a));
    assert b in r1 by { assert b in WithKey(r1, Key(b)); }
    assert a in r2 by { assert a in WithKey(r2, Key(a)); }
  }

  /** Removing equal first entries from two sequences with the same groups leaves the same groups. */
  lemma {:induction false} SameGroupsOfTails(r1: seq<ScheduledMessage>, r2: seq<ScheduledMessage>)
    requires forall k: nat :: WithKey(r1, k) == WithKey(r2, k)
    requires r1 != [] && r2 != [] && r1[0] == r2[0]
    ensures forall k: nat :: WithKey(r1[1..], k) == WithKey(r2[1..], k)
  {
    forall k: nat
      ensures WithKey(r1[1..], k) == WithKey(r2[1..], k)
    {
      WithKeyCons(r1[0], r1[1..], k);
      WithKeyCons(r2[0], r2[1..], k);
      assert [r1[0]] + r1[1..] == r1;
      assert [r2[0]] + r2[1..] == r2;
      var n := if Key(r1[0]) == k then 1 else 0;
      assert WithKey(r1[1..], k) == WithKey(r1, k)[n..];
      assert WithKey(r2[1..], k) == WithKey(r2, k)[n..];
    }
  }

  /** Two sorted sequences with the same groups start with the same entry. */
  lemma {:induction false} SameGroupsSameFirst(r1: seq<ScheduledMessage>, r2: seq<ScheduledMessage>)
    requires SortedByKey(r1) && SortedByKey(r2)
    requires forall k: nat :: WithKey(r1, k) == WithKey(r2, k)
    requires r1 != [] && r2 != []
    ensures r1[0] == r2[0]
  {
    SameGroupsSameFirstKey(r1, r2);
    var m := Key(r1[0]);
    WithKeyCons(r1[0], r1[1..], m);
    WithKeyCons(r2[0], r2[1..], m);
    assert [r1[0]] + r1[1..] == r1;
    assert [r2[0]] + r2[1..] == r2;
    assert r1[0] == WithKey(r1, m)[0];
    assert r2[0] == WithKey(r2, m)[0];
  }

  /** A sequence with the same groups as the empty sequence is empty. */
  lemma {:induction false} SameGroupsAsEmpty(r: seq<ScheduledMessage>)
    requires forall k: nat :: WithKey(r, k) == WithKey([], k)
    ensures r == []
  {
    if r != [] {
      InOwnGroup(r, 0);
    }
  }

  /** Two sorted sequences with the same groups are equal. */
  lemma {:induction false} SameGroupsSameSequence(r1: seq<ScheduledMessage>, r2: seq<ScheduledMessage>)
    requires SortedByKey(r1) && SortedByKey(r2)
    requires forall k: nat :: WithKey(r1, k) == WithKey(r2, k)
    ensures r1 == r2
    decreases |r1|
  {
    if r1 == [] {
      SameGroupsAsEmpty(r2);
    } else if r2 == [] {
      SameGroupsAsEmpty(r1);
    } else {
      SameGroupsSameFirst(r1, r2);
      SameGroupsOfTails(r1, r2);
      SameGroupsSameSequence(r1[1..], r2[1..]);
      assert r1 == [r1[0]] + r1[1..];
      assert r2 == [r2[0]] + r2[1..];
    }
  }

  /** The stable sort of a plan is unique. */
  lemma {:induction false} StableSortUnique(r1: seq<ScheduledMessage>, r2: seq<ScheduledMessage>, plan: seq<ScheduledMessage>)
    requires IsStableSortOf(r1, plan) && IsStableSortOf(r2, plan)
    ensures r1 == r2
  {
    SameGroupsSameSequence(r1, r2);
  }

  /** Inserts `x` after every entry of `s` whose key is at most `x`'s. */
  function Insert(s: seq<ScheduledMessage>, x: ScheduledMessage): seq<ScheduledMessage> {
    if s == [] then [x]
    else if Key(x) < Key(s[0]) then [x] + s
    else [s[0]] + Insert(s[1..], x)
  }

  /** Reference definition: insertion sort by key, taking the plan's entries in order. */
  function SortByTimeout(plan: seq<ScheduledMessage>): seq<ScheduledMessage> {
    if plan == [] then []
    else Insert(SortByTimeout(plan[..|plan| - 1]), plan[|plan| - 1])
  }

  /** An entry whose key bounds a sorted sequence from below can be put in front of it. */
  lemma {:induction false} SortedCons(a: ScheduledMessage, u: seq<ScheduledMessage>)
    requires SortedByKey(u)
    requires forall j :: 0 <= j < |u| ==> Key(a) <= Key(u[j])
    ensures SortedByKey([a] + u)
  {
    forall i, j | 0 <= i < j < |[a] + u|
      ensures Key(([a] + u)[i]) <= Key(([a] + u)[j])
    {
      if i > 0 {
        assert ([a] + u)[i] == u[i - 1];
      }
      assert ([a] + u)[j] == u[j - 1];
    }
  }

  /** Inserting adds exactly `x`. */
  lemma {:induction false} InsertAddsOne(s: seq<ScheduledMessage>, x: ScheduledMessage)
    ensures multiset(Insert(s, x)) == multiset(s) + multiset{x}
  {
    if s != [] && Key(x) >= Key(s[0]) {
      InsertAddsOne(s[1..], x);
      assert s == [s[0]] + s[1..];
    }
  }

  /** A lower bound on every key of `s` and on `x`'s key bounds the keys after inserting `x`. */
  lemma {:induction false} InsertLowerBound(s: seq<ScheduledMessage>, x: ScheduledMessage, b: nat)
    requires forall j :: 0 <= j < |s| ==> b <= Key(s[j])
    requires b <= Key(x)
    ensures forall j :: 0 <= j < |Insert(s, x)| ==> b <= Key(Insert(s, x)[j])
  {
    if s == [] {
    } else if Key(x) < Key(s[0]) {
      var r := Insert(s, x);
      assert r == [x] + s;
      forall j | 0 <= j < |r|
        ensures b <= Key(r[j])
      {
        if j > 0 {
          assert r[j] == s[j - 1];
        }
      }
    } else {
      var t := s[1..];
      var r := Insert(s, x);
      assert r == [s[0]] + Insert(t, x);
      InsertLowerBound(t, x, b);
      forall j | 0 <= j < |r|
        ensures b <= Key(r[j])
      {
        if j > 0 {
          assert r[j] == Insert(t, x)[j - 1];
        }
      }
    }
  }

  /** Inserting into a sorted sequence keeps it sorted and adds exactly `x`. */
  lemma {:induction false} InsertSorted(s: seq<ScheduledMessage>, x: ScheduledMessage)
    requires SortedByKey(s)
    ensures SortedByKey(Insert(s, x))
    ensures multiset(Insert(s, x)) == multiset(s) + multiset{x}
  {
    InsertAddsOne(s, x);
    if s == [] {
      assert Insert(s, x) == [x];
    } else if Key(x) < Key(s[0]) {
      assert Insert(s, x) == [x] + s;
      SortedCons(x, s);
    } else {
      var t := s[1..];
      assert SortedByKey(t);
      InsertSorted(t, x);
      assert Insert(s, x) == [s[0]] + Insert(t, x);
      assert forall j :: 0 <= j < |t| ==> t[j] == s[j + 1];
      InsertLowerBound(t, x, Key(s[0]));
      SortedCons(s[0], Insert(t, x));
    }
  }

  /** Inserting `x` into a sorted sequence puts it last in its group and leaves the other groups alone. */
  lemma {:induction false} InsertGroups(s: seq<ScheduledMessage>, x: ScheduledMessage, k: nat)
    requires SortedByKey(s)
    ensures WithKey(Insert(s, x), k) == WithKey(s, k) + WithKey([x], k)
  {
    WithKeyCons(x, [], k);
    assert [x] + [] == [x];
    if s == [] {
      assert Insert(s, x) == [x];
    } else if Key(x) < Key(s[0]) {
      assert Insert(s, x) == [x] + s;
      WithKeyCons(x, s, k);
      if Key(x) == k {
        WithKeyAbsent(s, k);
      }
    } else {
      var t := s[1..];
      assert Insert(s, x) == [s[0]] + Insert(t, x);
      assert SortedByKey(t);
      InsertGroups(t, x, k);
      WithKeyCons(s[0], Insert(t, x), k);
      WithKeyCons(s[0], t, k);
      assert s == [s[0]] + t;
    }
  }

  /** The reference sort is a stable sort and a permutation of the plan. */
  lemma {:induction false} SortByTimeoutCorrect(plan: seq<ScheduledMessage>)
    ensures IsStableSortOf(SortByTimeout(plan), plan)
    ensures multiset(SortByTimeout(plan)) == multiset(plan)
  {
    if plan != [] {
      var init, last := plan[..|plan| - 1], plan[|plan| - 1];
      SortByTimeoutCorrect(init);
      InsertSorted(SortByTimeout(init), last);
      assert plan == init + [last];
      forall k: nat ensures WithKey(SortByTimeout(plan), k) == WithKey(plan, k) {
        InsertGroups(SortByTimeout(init), last, k);
        WithKeyAppend(init, [last], k);
      }
    }
  }

  /** Any stable sort of the plan is the reference sort, hence a permutation of the plan. */
  lemma {:induction false} StableSortIsReferenceSort(r: seq<ScheduledMessage>, plan: seq<ScheduledMessage>)
    requires IsStableSortOf(r, plan)
    ensures r == SortByTimeout(plan)
    ensures multiset(r) == multiset(plan)
  {
    SortByTimeoutCorrect(plan);
    StableSortUnique(r, SortByTimeout(plan), plan);
  }

  /** The entry's delay is a whole number of seconds whose timeout is exactly that many milliseconds. */
  predicate InExactRange(m: ScheduledMessage) {
    m.delay.Seconds? && 0 <= m.delay.n <= MaxExactSeconds
  }

  /** The delay in seconds, NaN read as 0. */
  function DelaySeconds(m: ScheduledMessage): int {
    if m.delay.Seconds? then m.delay.n else 0
  }

  /** When every delay is in the exact range, the reference sort orders the entries by their delay in seconds. */
  lemma {:induction false} InRangeSortIsBySeconds(plan: seq<ScheduledMessage>)
    requires forall i :: 0 <= i < |plan| ==> InExactRange(plan[i])
    ensures forall i :: 0 <= i < |SortByTimeout(plan)| ==> InExactRange(SortByTimeout(plan)[i])
    ensures forall i, j :: 0 <= i < j < |SortByTimeout(plan)| ==>
              DelaySeconds(SortByTimeout(plan)[i]) <= DelaySeconds(SortByTimeout(plan)[j])
  {
    var r := SortByTimeout(plan);
    SortByTimeoutCorrect(plan);
    forall i | 0 <= i < |r|
      ensures InExactRange(r[i])
    {
      assert r[i] in multiset(r);
      assert r[i] in multiset(plan);
      var k :| 0 <= k < |plan| && plan[k] == r[i];
    }
    forall i, j | 0 <= i < j < |r|
      ensures DelaySeconds(r[i]) <= DelaySeconds(r[j])
    {
      assert Key(r[i]) <= Key(r[j]);
    }
  }

  lemma SortShortestDelayFirst(a: ScheduledMessage, b: ScheduledMessage, c: ScheduledMessage)
    requires a.delay == Seconds(2) && b.delay == Seconds(0) && c.delay == Seconds(1)
    ensures SortByTimeout([a, b, c]) == [b, c, a]
  {
    assert Key(a) == 2000 && Key(b) == 0 && Key(c) == 1000;
    assert [a, b, c][..2] == [a, b] && [a, b][..1] == [a] && [a][..0] == [];
    assert SortByTimeout([a]) == [a];
    assert SortByTimeout([a, b]) == Insert([a], b) == [b, a];
    assert Insert([a], c) == [c, a];
    assert SortByTimeout([a, b, c]) == Insert([b, a], c) == [b] + Insert([a], c);
  }

  lemma SortEqualDelaysKeepPlanOrder(a: ScheduledMessage, b: ScheduledMessage, c: ScheduledMessage)
    requires a.delay == Seconds(3) && b.delay == Seconds(3) && c.delay == Seconds(5)
    ensures SortByTimeout([c, a, b]) == [a, b, c]
  {
    assert Key(a) == 3000 && Key(b) == 3000 && Key(c) == 5000;
    assert [c, a, b][..2] == [c, a] && [c, a][..1] == [c] && [c][..0] == [];
    assert SortByTimeout([c]) == [c];
    assert SortByTimeout([c, a]) == Insert([c], a) == [a, c];
    assert Insert([c], b) == [b, c];
    assert SortByTimeout([c, a, b]) == Insert([a, c], b) == [a] + Insert([c], b);
  }
}
