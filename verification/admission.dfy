/** The limiter over a whole arrival sequence of one key: no window ever holds more than
    100 admissions, and no other policy with that property admits more, or earlier. */
module Admission {
  import opened Types
  import opened RateLimiter

  predicate Sorted(arrivals: seq<nat>) {
    forall i, j :: 0 <= i < j < |arrivals| ==> arrivals[i] <= arrivals[j]
  }

  /** How many of the decisions are admissions. */
  function Admitted(choice: seq<bool>): nat {
    if choice == [] then 0
    else Admitted(choice[..|choice| - 1]) + (if choice[|choice| - 1] then 1 else 0)
  }

  /** How many admissions arrived in the interval (lo, hi]. */
  function InInterval(arrivals: seq<nat>, choice: seq<bool>, lo: int, hi: int): nat
    requires |arrivals| == |choice|
  {
    if choice == [] then 0
    else
      var n := |choice| - 1;
      InInterval(arrivals[..n], choice[..n], lo, hi)
      + (if choice[n] && lo < arrivals[n] <= hi then 1 else 0)
  }

  /** The admissions in the window of 60 seconds that ends at x. */
  function Window(arrivals: seq<nat>, choice: seq<bool>, x: int): nat
    requires |arrivals| == |choice|
  {
    InInterval(arrivals, choice, x - 60_000, x)
  }

  /** A policy that never lets more than 100 requests into a window. */
  ghost predicate Feasible(arrivals: seq<nat>, choice: seq<bool>)
    requires |arrivals| == |choice|
  {
    forall x: int :: Window(arrivals, choice, x) <= 100
  }

  /** The reference policy over the unbounded history: admit if fewer than 100 admissions
      lie in the window that ends now. */
  function Greedy(arrivals: seq<nat>): (choice: seq<bool>)
    ensures |choice| == |arrivals|
  {
    if arrivals == [] then []
    else
      var n := |arrivals| - 1;
      var past := Greedy(arrivals[..n]);
      past + [Window(arrivals[..n], past, arrivals[n]) < 100]
  }

  // ----- the script makes the reference decisions -----

  /** An arrival, the member the client made for it, and whether Redis drops a key that
      has reached its deadline by then. */
  datatype Arrival = Arrival(at: nat, member: Id, lapsed: bool)

  function Times(xs: seq<Arrival>): (ts: seq<nat>)
    ensures |ts| == |xs|
  {
    seq(|xs|, i requires 0 <= i < |xs| => xs[i].at)
  }

  /** The key and the decisions after the script has served the arrivals in order. */
  function Served(xs: seq<Arrival>): (SortedSet, seq<bool>) {
    if xs == [] then (Missing, [])
    else
      var n := |xs| - 1;
      var (z, past) := Served(xs[..n]);
      var (allowed, z') := Script(Survivor(z, xs[n].lapsed, xs[n].at), xs[n].at, xs[n].member);
      (z', past + [allowed])
  }

  /** The admissions of a sequence of decisions, in order. */
  function History(xs: seq<Arrival>, choice: seq<bool>): seq<Entry>
    requires |xs| == |choice|
  {
    if xs == [] then []
    else
      var n := |xs| - 1;
      var past := History(xs[..n], choice[..n]);
      if choice[n] then past + [Entry(xs[n].at, xs[n].member)] else past
  }

  lemma {:induction false} HistoryFromArrivals(xs: seq<Arrival>, choice: seq<bool>, k: nat)
    requires |xs| == |choice| && k < |History(xs, choice)|
    ensures exists i :: 0 <= i < |xs| && History(xs, choice)[k] == Entry(xs[i].at, xs[i].member)
  {
    var n := |xs| - 1;
    var past := History(xs[..n], choice[..n]);
    if k < |past| {
      HistoryFromArrivals(xs[..n], choice[..n], k);
      var i :| 0 <= i < n && past[k] == Entry(xs[..n][i].at, xs[..n][i].member);
      assert History(xs, choice)[k] == Entry(xs[i].at, xs[i].member);
    } else {
      assert History(xs, choice)[k] == Entry(xs[n].at, xs[n].member);
    }
  }

  lemma {:induction false} RecentIsInterval(xs: seq<Arrival>, choice: seq<bool>, lo: int, hi: int)
    requires |xs| == |choice|
    requires forall i :: 0 <= i < |xs| ==> xs[i].at <= hi
    ensures Recent(History(xs, choice), lo) == InInterval(Times(xs), choice, lo, hi)
  {
    if xs != [] {
      var n := |xs| - 1;
      RecentIsInterval(xs[..n], choice[..n], lo, hi);
      assert Times(xs)[..n] == Times(xs[..n]);
      var past := History(xs[..n], choice[..n]);
      var longer := past + [Entry(xs[n].at, xs[n].member)];
      assert longer[..|longer| - 1] == past;
    }
  }

  predicate UniqueMembers(xs: seq<Arrival>) {
    forall i, j :: 0 <= i < j < |xs| ==> xs[i].member != xs[j].member
  }

  /** With a clock that does not run backwards, every decision of the script is the
      decision over the unbounded history: neither pruning nor key expiry shows. */
  lemma {:induction false} ScriptIsGreedy(xs: seq<Arrival>)
    requires Sorted(Times(xs)) && UniqueMembers(xs)
    ensures Served(xs).1 == Greedy(Times(xs))
    ensures Represents(Served(xs).0, History(xs, Served(xs).1), LastCall(xs))
  {
    if xs != [] {
      var past := xs[..|xs| - 1];
      PrefixSorted(xs);
      ScriptIsGreedy(past);
      var x := xs[|xs| - 1];
      var (z, choice) := Served(past);
      var (allowed, z') := Script(Survivor(z, x.lapsed, x.at), x.at, x.member);
      MemberIsFresh(xs, choice);
      ScriptStep(xs, z, choice, allowed, z');
      HistoryUnfolds(xs, choice, allowed);
      GreedyFollows(xs, choice, allowed);
    }
  }

  function LastCall(xs: seq<Arrival>): int { if xs == [] then 0 else xs[|xs| - 1].at }

  lemma PrefixSorted(xs: seq<Arrival>)
    requires xs != [] && Sorted(Times(xs))
    ensures Times(xs)[..|xs| - 1] == Times(xs[..|xs| - 1])
    ensures Sorted(Times(xs[..|xs| - 1]))
    ensures forall i :: 0 <= i < |xs| ==> xs[i].at <= xs[|xs| - 1].at
  {
    var n := |xs| - 1;
    assert Times(xs)[..n] == Times(xs[..n]);
    forall i | 0 <= i < |xs| ensures xs[i].at <= xs[n].at {
      assert Times(xs)[i] == xs[i].at && Times(xs)[n] == xs[n].at;
    }
  }

  lemma MemberIsFresh(xs: seq<Arrival>, choice: seq<bool>)
    requires xs != [] && UniqueMembers(xs) && |choice| == |xs| - 1
    ensures FreshIn(History(xs[..|xs| - 1], choice), xs[|xs| - 1].member)
  {
    var past := xs[..|xs| - 1];
    var history := History(past, choice);
    forall k | 0 <= k < |history| ensures history[k].member != xs[|xs| - 1].member {
      HistoryFromArrivals(past, choice, k);
    }
  }

  /** The script is asked about the last arrival on a key that represents the admissions so
      far, and answers `allowed`, leaving z'. */
  ghost predicate Asked(xs: seq<Arrival>, z: SortedSet, choice: seq<bool>, allowed: bool, z': SortedSet) {
    && xs != [] && |choice| == |xs| - 1
    && FreshIn(History(xs[..|xs| - 1], choice), xs[|xs| - 1].member)
    && Represents(z, History(xs[..|xs| - 1], choice), LastCall(xs[..|xs| - 1]))
    && LastCall(xs[..|xs| - 1]) <= xs[|xs| - 1].at
    && Script(Survivor(z, xs[|xs| - 1].lapsed, xs[|xs| - 1].at), xs[|xs| - 1].at, xs[|xs| - 1].member)
       == (allowed, z')
  }

  lemma ScriptStep(xs: seq<Arrival>, z: SortedSet, choice: seq<bool>, allowed: bool, z': SortedSet)
    requires Asked(xs, z, choice, allowed, z')
    ensures Represents(z', Extended(xs, choice, allowed), LastCall(xs))
    ensures allowed <==> Recent(History(xs[..|xs| - 1], choice), xs[|xs| - 1].at - WINDOW_MS) < MAX_REQUESTS
  {
    ScriptRefinesHistory(z, History(xs[..|xs| - 1], choice), LastCall(xs[..|xs| - 1]),
                         xs[|xs| - 1].at, xs[|xs| - 1].member, xs[|xs| - 1].lapsed);
  }

  /** The history before the last arrival, and that arrival if it was admitted. */
  function Extended(xs: seq<Arrival>, choice: seq<bool>, allowed: bool): seq<Entry>
    requires xs != [] && |choice| == |xs| - 1
  {
    var past := History(xs[..|xs| - 1], choice);
    if allowed then past + [Entry(xs[|xs| - 1].at, xs[|xs| - 1].member)] else past
  }

  lemma HistoryUnfolds(xs: seq<Arrival>, choice: seq<bool>, allowed: bool)
    requires xs != [] && |choice| == |xs| - 1
    ensures History(xs, choice + [allowed]) == Extended(xs, choice, allowed)
  {
    assert (choice + [allowed])[..|xs| - 1] == choice;
  }

  lemma RecentIsWindow(xs: seq<Arrival>, choice: seq<bool>, t: nat)
    requires |xs| == |choice|
    requires forall i :: 0 <= i < |xs| ==> xs[i].at <= t
    ensures Recent(History(xs, choice), t - WINDOW_MS) == Window(Times(xs), choice, t)
  {
    RecentIsInterval(xs, choice, t - WINDOW_MS, t);
  }

  lemma GreedyUnfolds(xs: seq<Arrival>, choice: seq<bool>, allowed: bool)
    requires xs != [] && Times(xs)[..|xs| - 1] == Times(xs[..|xs| - 1])
    requires choice == Greedy(Times(xs[..|xs| - 1]))
    requires allowed <==> Window(Times(xs[..|xs| - 1]), choice, xs[|xs| - 1].at) < MAX_REQUESTS
    ensures Greedy(Times(xs)) == choice + [allowed]
  {
  }

  lemma GreedyFollows(xs: seq<Arrival>, choice: seq<bool>, allowed: bool)
    requires xs != [] && Times(xs)[..|xs| - 1] == Times(xs[..|xs| - 1])
    requires forall i :: 0 <= i < |xs| ==> xs[i].at <= xs[|xs| - 1].at
    requires choice == Greedy(Times(xs[..|xs| - 1]))
    requires allowed <==> Recent(History(xs[..|xs| - 1], choice), xs[|xs| - 1].at - WINDOW_MS) < MAX_REQUESTS
    ensures Greedy(Times(xs)) == choice + [allowed]
  {
    RecentIsWindow(xs[..|xs| - 1], choice, xs[|xs| - 1].at);
    GreedyUnfolds(xs, choice, allowed);
  }

  // ----- the bound -----

  lemma {:induction false} IntervalMonotone(arrivals: seq<nat>, choice: seq<bool>, lo: int, hi: int, lo': int, hi': int)
    requires |arrivals| == |choice| && lo' <= lo && hi <= hi'
    ensures InInterval(arrivals, choice, lo, hi) <= InInterval(arrivals, choice, lo', hi')
  {
    if choice != [] {
      var n := |choice| - 1;
      IntervalMonotone(arrivals[..n], choice[..n], lo, hi, lo', hi');
    }
  }

  /** Arrivals in the past of t: widening an interval beyond t adds nothing. */
  lemma {:induction false} IntervalClipped(arrivals: seq<nat>, choice: seq<bool>, lo: int, hi: int, t: int)
    requires |arrivals| == |choice| && t <= hi
    requires forall i :: 0 <= i < |arrivals| ==> arrivals[i] <= t
    ensures InInterval(arrivals, choice, lo, hi) == InInterval(arrivals, choice, lo, t)
  {
    if choice != [] {
      var n := |choice| - 1;
      IntervalClipped(arrivals[..n], choice[..n], lo, hi, t);
    }
  }

  /** Every window of 60 seconds, wherever it ends, holds at most 100 admissions. */
  lemma {:induction false} GreedyIsFeasible(arrivals: seq<nat>)
    requires Sorted(arrivals)
    ensures Feasible(arrivals, Greedy(arrivals))
  {
    forall x: int ensures Window(arrivals, Greedy(arrivals), x) <= 100 {
      GreedyWindow(arrivals, x);
    }
  }

  lemma {:induction false} GreedyWindow(arrivals: seq<nat>, x: int)
    requires Sorted(arrivals)
    ensures Window(arrivals, Greedy(arrivals), x) <= 100
  {
    if arrivals != [] {
      var n := |arrivals| - 1;
      var past := arrivals[..n];
      var choice := Greedy(past);
      assert Greedy(arrivals)[..n] == choice;
      GreedyWindow(past, x);
      var t := arrivals[n];
      if Greedy(arrivals)[n] && x - WINDOW_MS < t <= x {
        IntervalClipped(past, choice, x - WINDOW_MS, x, t);
        IntervalMonotone(past, choice, x - WINDOW_MS, t, t - WINDOW_MS, t);
      }
    }
  }

  /** At most 100 script-admitted requests per key in every window of that length. */
  lemma ScriptIsFeasible(xs: seq<Arrival>)
    requires Sorted(Times(xs)) && UniqueMembers(xs)
    ensures |Served(xs).1| == |xs| && Feasible(Times(xs), Served(xs).1)
  {
    ScriptIsGreedy(xs);
    GreedyIsFeasible(Times(xs));
  }

  // ----- optimality -----

  lemma {:induction false} AdmittedGrows(choice: seq<bool>, p: nat, n: nat)
    requires p <= n <= |choice|
    ensures Admitted(choice[..p]) <= Admitted(choice[..n])
    decreases n
  {
    if p < n {
      AdmittedGrows(choice, p, n - 1);
      assert choice[..n][..n - 1] == choice[..n - 1];
    }
  }

  /** The admissions of sorted arrivals in an interval that reaches to the last of them are
      those after the first p, where p arrivals are at or before its lower end. */
  lemma {:induction false} IntervalIsSuffix(arrivals: seq<nat>, choice: seq<bool>, p: nat, lo: int, hi: int)
    requires |arrivals| == |choice| && p <= |choice|
    requires forall i :: 0 <= i < p ==> arrivals[i] <= lo
    requires forall i :: p <= i < |arrivals| ==> lo < arrivals[i] <= hi
    ensures InInterval(arrivals, choice, lo, hi) + Admitted(choice[..p]) == Admitted(choice)
    decreases |choice|
  {
    if p == |choice| {
      assert choice[..p] == choice;
      NothingInInterval(arrivals, choice, lo, hi);
    } else {
      var n := |choice| - 1;
      IntervalIsSuffix(arrivals[..n], choice[..n], p, lo, hi);
      assert choice[..n][..p] == choice[..p];
    }
  }

  lemma {:induction false} NothingInInterval(arrivals: seq<nat>, choice: seq<bool>, lo: int, hi: int)
    requires |arrivals| == |choice|
    requires forall i :: 0 <= i < |arrivals| ==> arrivals[i] <= lo
    ensures InInterval(arrivals, choice, lo, hi) == 0
    decreases |choice|
  {
    if choice != [] {
      var n := |choice| - 1;
      NothingInInterval(arrivals[..n], choice[..n], lo, hi);
    }
  }

  /** How many arrivals are at or before lo; in sorted arrivals they are the first ones. */
  lemma {:induction false} SplitPoint(arrivals: seq<nat>, lo: int) returns (p: nat)
    requires Sorted(arrivals)
    ensures p <= |arrivals|
    ensures forall i :: 0 <= i < p ==> arrivals[i] <= lo
    ensures forall i :: p <= i < |arrivals| ==> lo < arrivals[i]
    decreases |arrivals|
  {
    if arrivals == [] || arrivals[|arrivals| - 1] <= lo {
      p := |arrivals|;
    } else {
      p := SplitPoint(arrivals[..|arrivals| - 1], lo);
    }
  }

  lemma {:induction false} GreedyPrefix(arrivals: seq<nat>, n: nat)
    requires n <= |arrivals|
    ensures Greedy(arrivals)[..n] == Greedy(arrivals[..n])
    decreases |arrivals|
  {
    if n < |arrivals| {
      var m := |arrivals| - 1;
      GreedyPrefix(arrivals[..m], n);
      assert arrivals[..m][..n] == arrivals[..n];
      assert Greedy(arrivals)[..m] == Greedy(arrivals[..m]);
      assert Greedy(arrivals)[..n] == Greedy(arrivals)[..m][..n];
    } else {
      assert arrivals[..n] == arrivals;
    }
  }

  lemma {:induction false} IntervalPrefix(arrivals: seq<nat>, choice: seq<bool>, n: nat, lo: int, hi: int)
    requires |arrivals| == |choice| && n <= |choice|
    ensures InInterval(arrivals[..n], choice[..n], lo, hi) <= InInterval(arrivals, choice, lo, hi)
    decreases |choice|
  {
    if n < |choice| {
      var m := |choice| - 1;
      IntervalPrefix(arrivals[..m], choice[..m], n, lo, hi);
      assert arrivals[..m][..n] == arrivals[..n] && choice[..m][..n] == choice[..n];
    } else {
      assert arrivals[..n] == arrivals && choice[..n] == choice;
    }
  }

  /** The limiter is an optimal admitter: no feasible policy has admitted more requests
      after any prefix of the arrivals. */
  lemma {:induction false} GreedyAdmitsMost(arrivals: seq<nat>, other: seq<bool>, n: nat)
    requires Sorted(arrivals) && |other| == |arrivals| && Feasible(arrivals, other)
    requires n <= |arrivals|
    ensures Admitted(other[..n]) <= Admitted(Greedy(arrivals)[..n])
    decreases n
  {
    if n > 0 {
      var m := n - 1;
      GreedyAdmitsMost(arrivals, other, m);
      var mine := Greedy(arrivals);
      assert other[..n][..m] == other[..m] && mine[..n][..m] == mine[..m];
      if other[m] && !mine[m] {
        var past, t := arrivals[..m], arrivals[m];
        var lo := t - WINDOW_MS;
        var p := SplitPoint(past, lo);
        GreedyAdmitsMost(arrivals, other, p);
        GreedyRefusesFull(arrivals, m, p, lo);
        OtherFillsNoMore(arrivals, other, m, p, lo);
      }
    }
  }

  /** Where the limiter refuses, its window already holds 100 admissions. */
  lemma {:induction false} GreedyRefusesFull(arrivals: seq<nat>, m: nat, p: nat, lo: int)
    requires Sorted(arrivals) && m < |arrivals| && !Greedy(arrivals)[m]
    requires lo == arrivals[m] - WINDOW_MS && p <= m
    requires forall i :: 0 <= i < p ==> arrivals[i] <= lo
    requires forall i :: p <= i < m ==> lo < arrivals[i]
    ensures Admitted(Greedy(arrivals)[..m]) >= Admitted(Greedy(arrivals)[..p]) + MAX_REQUESTS
  {
    GreedyDecision(arrivals, m);
    var mine := Greedy(arrivals)[..m];
    IntervalIsSuffix(arrivals[..m], mine, p, lo, arrivals[m]);
    assert mine[..p] == Greedy(arrivals)[..p];
  }

  lemma {:induction false} GreedyDecision(arrivals: seq<nat>, m: nat)
    requires m < |arrivals|
    ensures Greedy(arrivals)[m] <==>
              Window(arrivals[..m], Greedy(arrivals)[..m], arrivals[m]) < MAX_REQUESTS
  {
    var upTo := arrivals[..m + 1];
    GreedyPrefix(arrivals, m);
    GreedyPrefix(arrivals, m + 1);
    assert upTo[..m] == arrivals[..m];
    assert Greedy(arrivals)[m] == Greedy(arrivals)[..m + 1][m];
    assert Greedy(upTo)[m] == (Window(upTo[..m], Greedy(upTo[..m]), upTo[m]) < MAX_REQUESTS);
  }

  /** Where a feasible policy admits, its window held at most 99 before. */
  lemma OtherFillsNoMore(arrivals: seq<nat>, other: seq<bool>, m: nat, p: nat, lo: int)
    requires Sorted(arrivals) && |other| == |arrivals| && Feasible(arrivals, other)
    requires m < |arrivals| && other[m] && lo == arrivals[m] - WINDOW_MS && p <= m
    requires forall i :: 0 <= i < p ==> arrivals[i] <= lo
    requires forall i :: p <= i < m ==> lo < arrivals[i]
    ensures Admitted(other[..m]) + 1 <= Admitted(other[..p]) + MAX_REQUESTS
  {
    var n := m + 1;
    IntervalPrefix(arrivals, other, n, lo, arrivals[m]);
    IntervalIsSuffix(arrivals[..n], other[..n], p, lo, arrivals[m]);
    assert other[..n][..p] == other[..p];
    assert other[..n][..m] == other[..m];
    assert Window(arrivals, other, arrivals[m]) <= MAX_REQUESTS;
  }

  /** Decision n is the k-th admission, counting from zero. */
  predicate IsNth(choice: seq<bool>, k: nat, n: nat) {
    n < |choice| && choice[n] && Admitted(choice[..n]) == k
  }

  lemma {:induction false} NthExists(choice: seq<bool>, k: nat, n: nat) returns (m: nat)
    requires n <= |choice| && k < Admitted(choice[..n])
    ensures m < n && IsNth(choice, k, m)
    decreases n
  {
    assert choice[..n][..n - 1] == choice[..n - 1];
    if k < Admitted(choice[..n - 1]) {
      m := NthExists(choice, k, n - 1);
    } else {
      m := n - 1;
    }
  }

  /** The k-th request the limiter admits is never later than the k-th request that any
      other feasible policy admits. */
  lemma GreedyAdmitsEarliest(arrivals: seq<nat>, other: seq<bool>, k: nat, n: nat)
    requires Sorted(arrivals) && |other| == |arrivals| && Feasible(arrivals, other)
    requires IsNth(other, k, n)
    ensures exists m: nat :: m <= n && IsNth(Greedy(arrivals), k, m) && arrivals[m] <= arrivals[n]
  {
    GreedyAdmitsMost(arrivals, other, n + 1);
    assert other[..n + 1][..n] == other[..n];
    var m := NthExists(Greedy(arrivals), k, n + 1);
    assert m <= n && IsNth(Greedy(arrivals), k, m);
  }
}
