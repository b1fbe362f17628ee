/** Invoice totals: the 64-bit fold over the requested line items. */
module Money {
  import opened Types

  const TWO_64: int := 0x1_0000_0000_0000_0000

  /** Two's complement truncation to 64 bits, which is what release arithmetic does. */
  function Wrap64(x: int): (r: I64)
    ensures (r - x) % TWO_64 == 0
  {
    var m := x % TWO_64;
    if m <= MAX_I64 then m else m - TWO_64
  }

  function Amount(item: LineItem): int { item.quantity * item.unitAmountCents }

  /** The amount of a list of line items in mathematical integers. */
  function Sum(items: seq<LineItem>): int {
    if items == [] then 0 else Amount(items[0]) + Sum(items[1..])
  }

  /** The running value of the fold after it has consumed `items`, starting at `acc`. */
  function FoldFrom(acc: I64, items: seq<LineItem>): I64
    decreases |items|
  {
    if items == [] then acc else FoldFrom(Wrap64(acc + Wrap64(Amount(items[0]))), items[1..])
  }

  function MachineTotal(items: seq<LineItem>): I64 { FoldFrom(0, items) }

  predicate Positive(item: LineItem) { item.quantity > 0 && item.unitAmountCents > 0 }

  predicate AllPositive(items: seq<LineItem>) {
    forall j :: 0 <= j < |items| ==> Positive(items[j])
  }

  lemma WrapExact(x: int)
    ensures Wrap64(x) == x <==> -MAX_I64 - 1 <= x <= MAX_I64
  {
  }

  lemma WrapAdd(x: int, y: int)
    ensures Wrap64(Wrap64(x) + y) == Wrap64(x + y)
  {
    assert (Wrap64(x) + y) % TWO_64 == (x + y) % TWO_64;
  }

  lemma WrapTwice(acc: int, p: int, rest: int)
    ensures Wrap64(Wrap64(acc + Wrap64(p)) + rest) == Wrap64(acc + (p + rest))
  {
    WrapAdd(p, acc);
    WrapAdd(acc + p, rest);
  }

  /** However often it wraps on the way, the fold ends at the truncated true sum. */
  lemma {:induction false} FoldIsWrappedSum(acc: I64, items: seq<LineItem>)
    ensures FoldFrom(acc, items) == Wrap64(acc + Sum(items))
    decreases |items|
  {
    if items != [] {
      var next := Wrap64(acc + Wrap64(Amount(items[0])));
      FoldIsWrappedSum(next, items[1..]);
      WrapTwice(acc, Amount(items[0]), Sum(items[1..]));
    }
  }

  lemma {:induction false} SumAppend(a: seq<LineItem>, b: seq<LineItem>)
    ensures Sum(a + b) == Sum(a) + Sum(b)
    decreases |a|
  {
    if a == [] {
      assert a + b == b;
    } else {
      assert (a + b)[1..] == a[1..] + b;
      SumAppend(a[1..], b);
    }
  }

  lemma {:induction false} SumNonNegative(items: seq<LineItem>)
    requires AllPositive(items)
    ensures Sum(items) >= |items|
    decreases |items|
  {
    if items != [] {
      SumNonNegative(items[1..]);
      AmountPositive(items[0]);
    }
  }

  lemma AmountPositive(item: LineItem)
    requires Positive(item)
    ensures Amount(item) >= 1
  {
  }

  /** When the true total of positive items fits in 64 bits, no product and no prefix
      of the fold leaves the 64-bit range, so neither build of the program notices. */
  lemma {:induction false} NoIntermediateOverflow(items: seq<LineItem>, k: nat)
    requires AllPositive(items) && Sum(items) <= MAX_I64 && k <= |items|
    ensures FoldFrom(0, items[..k]) == Sum(items[..k])
    ensures 0 <= Sum(items[..k]) <= MAX_I64
    ensures k < |items| ==> 0 < Amount(items[k]) <= MAX_I64
  {
    assert items == items[..k] + items[k..];
    SumAppend(items[..k], items[k..]);
    SumNonNegative(items[..k]);
    SumNonNegative(items[k..]);
    FoldIsWrappedSum(0, items[..k]);
    WrapExact(Sum(items[..k]));
    if k < |items| {
      SumNonNegative(items[k + 1..]);
      assert items[k..][1..] == items[k + 1..];
      AmountPositive(items[k]);
    }
  }

  /** The stored total is the amount of the items exactly when that amount fits. */
  lemma {:induction false} TotalExactIffFits(items: seq<LineItem>)
    requires AllPositive(items)
    ensures MachineTotal(items) == Sum(items) <==> Sum(items) <= MAX_I64
  {
    SumNonNegative(items);
    FoldIsWrappedSum(0, items);
    WrappedIsExact(Sum(items), MachineTotal(items));
  }

  lemma WrappedIsExact(x: nat, t: int)
    requires t == Wrap64(x)
    ensures t == x <==> x <= MAX_I64
  {
  }

  /** A total that the program stores wrongly although every check it makes passes. */
  lemma OverflowWitness() returns (items: seq<LineItem>)
    ensures AllPositive(items) && items != []
    ensures MachineTotal(items) > 0 && MachineTotal(items) != Sum(items)
  {
    var item := LineItem(3, 0x7fff_ffff_ffff_ffff);
    items := [item];
    FoldIsWrappedSum(0, items);
    assert Sum(items[1..]) == 0;
    assert Sum(items) == 3 * 0x7fff_ffff_ffff_ffff;
    assert Wrap64(Sum(items)) == 0x7fff_ffff_ffff_fffd;
  }
}
