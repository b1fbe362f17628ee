/** The reconciliation worker's backoff: two to the retry count, capped at 16 minutes. */
module RetrySchedule {
  import opened Types
  import Money

  function Pow2(k: nat): nat { if k == 0 then 1 else 2 * Pow2(k - 1) }

  /** The documented schedule, in mathematical integers. */
  function ScheduleMins(k: nat): nat { if k >= 4 then 16 else Pow2(k) }

  function WrapI32(x: int): int {
    var m := x % 0x1_0000_0000;
    if m <= MAX_I32 then m else m - 0x1_0000_0000
  }

  function Min(a: int, b: int): int { if a <= b then a else b }

  /** What the release build computes: a wrapping i64 power, the cap, a cast to i32. */
  function BackoffMins(k: nat): int { WrapI32(Min(Money.Wrap64(Pow2(k)), 16)) }

  /** What that comes to: the documented pause up to retry 62, and none ever after. */
  function PauseMins(k: nat): nat { if k <= 62 then ScheduleMins(k) else 0 }

  lemma {:induction false} Pow2Add(a: nat, b: nat)
    ensures Pow2(a + b) == Pow2(a) * Pow2(b)
    decreases a
  {
    if a > 0 {
      Pow2Add(a - 1, b);
      assert a + b - 1 == (a - 1) + b;
      DoubleProduct(Pow2(a - 1), Pow2(b));
    }
  }

  lemma DoubleProduct(x: int, y: int)
    ensures 2 * (x * y) == (2 * x) * y
  {
  }

  lemma {:induction false} Pow2Bounds(k: nat)
    ensures Pow2(k) >= 1
    ensures k >= 4 ==> Pow2(k) >= 16
    ensures k <= 62 ==> Pow2(k) <= 0x4000_0000_0000_0000
  {
    Pow2At62();
    if k <= 62 { Pow2Add(k, 62 - k); Pow2Positive(k); Pow2Positive(62 - k); Scale(Pow2(k), Pow2(62 - k)); }
    if k >= 4 {
      assert Pow2(4) == 16 by { assert Pow2(2) == 4; Pow2Add(2, 2); }
      Pow2Add(4, k - 4);
      Pow2Positive(k - 4);
    }
    Pow2Positive(k);
  }

  lemma Scale(a: nat, b: nat)
    requires b >= 1
    ensures a * b >= a
  {
  }

  lemma {:induction false} Pow2Positive(k: nat)
    ensures Pow2(k) >= 1
  {
    if k > 0 { Pow2Positive(k - 1); }
  }

  lemma Pow2At62()
    ensures Pow2(62) == 0x4000_0000_0000_0000
    ensures Pow2(63) == 0x8000_0000_0000_0000
    ensures Pow2(64) == 0x1_0000_0000_0000_0000
  {
    Pow2At16();
    Pow2Add(16, 16);
    Pow2Add(32, 32);
    assert Pow2(64) == 2 * Pow2(63);
    assert Pow2(63) == 2 * Pow2(62);
  }

  lemma Pow2At16()
    ensures Pow2(16) == 0x1_0000
  {
    assert Pow2(2) == 4;
    Pow2Add(2, 2);
    Pow2Add(4, 4);
    Pow2Add(8, 8);
  }

  /** The machine schedule is the documented one up to retry 62, and zero ever after. */
  lemma BackoffExact(k: nat)
    ensures BackoffMins(k) == PauseMins(k)
    ensures BackoffMins(k) == ScheduleMins(k) <==> k <= 62
  {
    if k <= 62 {
      Pow2Bounds(k);
      if k < 4 { SmallPowers(k); }
      CappedPower(Pow2(k));
    } else {
      OverflownPower(k);
    }
  }

  lemma SmallPowers(k: nat)
    requires k < 4
    ensures Pow2(k) <= 8
  {
    assert Pow2(0) == 1 && Pow2(1) == 2 && Pow2(2) == 4 && Pow2(3) == 8;
  }

  /** A power that fits in 64 bits is only capped. */
  lemma CappedPower(p: nat)
    requires p <= MAX_I64
    ensures WrapI32(Min(Money.Wrap64(p), 16)) == Min(p, 16)
  {
  }

  /** At 63 the power wraps to the least i64, which the cast truncates to zero; from 64 on
      it wraps to zero. */
  lemma OverflownPower(k: nat)
    requires k >= 63
    ensures BackoffMins(k) == 0
  {
    Pow2At62();
    if k > 63 {
      Pow2Add(64, k - 64);
      MultipleOf(Pow2(k - 64));
    }
  }

  lemma MultipleOf(n: int)
    ensures (Money.TWO_64 * n) % Money.TWO_64 == 0
  {
  }

  /** Successive not-found answers for one attempt, each no earlier than the backoff of
      the one before: on the documented schedule, and on the machine's. */
  ghost predicate OnSchedule(times: seq<int>) {
    forall j: nat :: j + 1 < |times| ==> times[j + 1] >= times[j] + MINUTE_MS * ScheduleMins(j)
  }

  ghost predicate OnMachineSchedule(times: seq<int>) {
    forall j: nat :: j + 1 < |times| ==> times[j + 1] >= times[j] + MINUTE_MS * PauseMins(j)
  }

  /** Minutes that the documented schedule puts between the first answer and answer k. */
  function ElapsedMins(k: nat): int {
    if k == 0 then 0 else ElapsedMins(k - 1) + ScheduleMins(k - 1)
  }

  lemma {:induction false} ElapsedClosedForm(k: nat)
    requires k >= 4
    ensures ElapsedMins(k) == 15 + 16 * (k - 4)
  {
    if k == 4 {
      assert Pow2(3) == 8 && Pow2(2) == 4 && Pow2(1) == 2 && Pow2(0) == 1;
      assert ElapsedMins(1) == 1 && ElapsedMins(2) == 3 && ElapsedMins(3) == 7;
    } else {
      ElapsedClosedForm(k - 1);
    }
  }

  /** Answer k of a sequence that keeps the schedule up to k comes at least
      `ElapsedMins(k)` minutes after the first one. */
  lemma {:induction false} SpacedBound(times: seq<int>, k: nat)
    requires k < |times|
    requires forall j: nat :: j < k ==> times[j + 1] >= times[j] + MINUTE_MS * ScheduleMins(j)
    ensures times[k] >= times[0] + MINUTE_MS * ElapsedMins(k)
    decreases k
  {
    if k > 0 {
      SpacedBound(times, k - 1);
      assert times[k - 1 + 1] >= times[k - 1] + MINUTE_MS * ScheduleMins(k - 1);
    }
  }

  /** On the documented schedule at most 94 not-found answers fit in 24 hours. */
  lemma ScheduleFits94(times: seq<int>)
    requires OnSchedule(times)
    requires forall j :: 0 <= j < |times| ==> times[j] < times[0] + DAY_MS
    ensures |times| <= 94
  {
    if |times| > 94 {
      SpacedBound(times, 94);
      ElapsedClosedForm(94);
    }
  }
}
